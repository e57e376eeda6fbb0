# gpu-reaper: a verified model

gpu-reaper is a daemon that watches a Slurm cluster for jobs that hold GPUs and do not use them. Every cycle it
lists the running jobs, samples the GPUs of their nodes, decides for each job whether those samples can be
attributed to it at all, and hands them to a policy engine. The engine keeps a sliding window of samples for each
incarnation of a job (job ID and start time), confirms a breach only on gap-free evidence over a whole window, and
climbs a ladder: Healthy, Watching, Alert, Drain, Cancel. A cluster actor carries out Drain and Cancel, and a drain
that succeeded is fed back to the engine, which will not cancel before that has happened and one window has passed.

The model has three layers.

* **Functions on values** say what one operation does: `Policy.dfy` (the engine's memory), `Actions.dfy` (calls to
  the cluster), `Daemon.dfy` (one cycle), `Hostlist.dfy`, `Squeue.dfy`, `Dcgm.dfy`, `Config.dfy`.
* **Objects and loops** do it step by step and are proved equal to those functions: `Engines.dfy` (`Engine`,
  `JobState`), `Actions.dfy` (`Controller`, `ClusterActor`), `Reapers.dfy` (`Reaper`), `Evidence.dfy` (coverage and
  summary loops), `Expansion.dfy` (host lists in 64-bit arithmetic), `Dcgm.dfy` (`DcgmGPU`). An `Engine` logs every
  operation in a ghost run; a `Reaper`'s cycle is one turn of a history.
* **Theorems over whole runs and histories**, against any job list, any telemetry and any answers of the cluster:
  `Ladder.dfy`, `Window.dfy`, `Contiguity.dfy`, `Waste.dfy`, `Isolation.dfy`, `Signatures.dfy`, `Progress.dfy`,
  `Tolerance.dfy` over runs of the engine; `Safety.dfy`, `Order.dfy`, `Attribution.dfy`, `Drains.dfy`, `EndToEnd.dfy`,
  `Escalation.dfy`, `Lapse.dfy` over histories of the daemon; `Grammar.dfy`, `Notation.dfy` and `Stages.dfy` over lists
  of hosts and stages.

Times and durations are integers (nanoseconds, zero meaning unset), floating-point values are reals, the two data
sources are arbitrary inputs, and the cluster's answers are an arbitrary function of the number of the call.

What the theorems about evidence assume is what the daemon provides and `EndToEnd.HistoryIsDriven` proves of it: one
delivery and one evaluation at the same instant, in that order. Beyond that they need a clock that does not go back and,
of the incarnation of the job they speak of only, sample stamps that are not in the future and not older than the window
less the largest gap, and unchanged nodes, GPU count and exemption. Its name and the other fields the engine does not
read may change from turn to turn (`Contiguity.Alike`), and nothing is asked of other jobs or other nodes. The order of
the ladder needs none of these.

The positive theorems, that a breach is confirmed and an idle job cancelled, hold from any point of a run or history at
which nothing has been kept of the job: before its first turn, after any number of turns without it, or throughout its
warmup (`Escalation.NothingIsKept`, `Escalation.WarmupIsQuiet`).

Places where the code says something else than one might read elsewhere, and the model follows the code:

* The comment on the ladder asks for "at least one Window spent in that state" before Cancel. The code measures one
  window since the drain was confirmed. `Lapse.DrainLapses` is a history, under an accepted configuration, that cancels
  after less than a window at Drain; `Ladder.WindowSpentAtDrain` says exactly when the window is spent there.
* The rule that as many cycles as `min_samples` must fit in the window multiplies two 64-bit integers. With an absurd
  count the product wraps around, the configuration is accepted, and no breach is ever confirmed
  (`Progress.OverflowIsAccepted`, `Progress.OverflowNeverConfirms`). `Progress.SteadyBreachIsConfirmed` gives the
  condition that a division checks without overflow: `min_samples` is at most one more than the number of whole
  intervals in the window. Where nothing overflows, the rule accepts exactly one count fewer than that
  (`Progress.RuleWithoutOverflow`): eleven samples every two minutes would work in twenty minutes and are refused.
* The comment on a failed cycle says that one is tolerated when `max_sample_gap` is at least twice the interval. That is
  so if one cycle fewer than the window can hold still makes `min_samples`, which the rule above guarantees where nothing
  overflows (`Tolerance.MissedCycleIsTolerated`, `Tolerance.AcceptedIsTolerated`).
* An evaluation that ends early (no GPUs, exempt, within warmup, no samples) leaves the record as it is; only a hole
  in the evidence or a busy sample resets it.
* A configuration can be accepted although a longer breach then calls for a lower verdict
  (`Config.AcceptableCanDrop`); `Stages.NeverDropsIff` says exactly when it cannot.
* The upper bound of a span in a host list may be written as a negative zero, and any number in one may carry a plus
  sign, which then counts towards the width.

## Model

| member | source | states |
|---|---|---|
| `EndToEnd.CancelHasEvidence` | cmd/gpu-reaper/main.go:195-384 | a cancel call, in any history whose clock does not go back and in which that job, of all jobs, was given fresh samples and unchanged nodes and GPUs, rests on one earlier turn, at least one window ago, that successfully drained every node of the job, with its record confirmed at every turn boundary since, and on readable, breaching, gap-free samples on every node from one window before that drain until now |
| `EndToEnd.HistoryIsDriven` | cmd/gpu-reaper/main.go:286-344 | a daemon with a forward clock that is given fresh samples and unchanged facts about one incarnation of a job drives its engine as the evidence theorems about that incarnation require |
| `EndToEnd.BlindDaemonTouchesNothing` | internal/policy/policy.go:475-486 | a daemon whose telemetry never reads process lists makes no call to the cluster, in any history and any mode |
| `EndToEnd.DcgmDaemonTouchesNothing` | internal/gpu/dcgm.go:376 | the same for a daemon fed by dcgm-exporter pages |
| `EndToEnd.OnlyLocalJobs` | cmd/gpu-reaper/main.go:236-253 | in any history, a daemon for a single node delivers, judges and confirms only GPU jobs that hold that node |
| `EndToEnd.OnlyLocalCalls` | cmd/gpu-reaper/main.go:236-253 | and calls the cluster only about listed GPU jobs that hold that node |
| `EndToEnd.JudgedExactlyWhen` | cmd/gpu-reaper/main.go:226-341 | a turn judges a listed job if and only if it holds GPUs, holds the local node if the daemon is for one, names each of its nodes once, shares none with another GPU job, was sampled on all of them, and is not disowned by a label |
| `Order.CallsFollowListing` | cmd/gpu-reaper/main.go:236-379 | of two calls of a turn, the earlier is about a job listed no later: the order of the list is kept through scope, evaluations, findings and calls |
| `Order.CallsAreAnswered` | internal/action/action.go:256-280 | in every history, call number i carries the i-th answer of the cluster |
| `Escalation.UnusedJobIsCancelled` | cmd/gpu-reaper/main.go:286-379 | a job that is steadily idle or hung from any turn on, among any others and by whatever name, in enforce mode with a cluster that does what it is told: the exact turns from which its verdict is at least Alert, Drain and Cancel, the one turn that drains it, and the turns that cancel it |
| `Escalation.UnusedJobIsObserved` | internal/action/action.go:248-254 | in observe mode the same job is found at Alert, Drain and Cancel in the same turns, and no call is ever made |
| `Escalation.UnusedJobIsFound` | internal/policy/policy.go:424-520 | the same turns in either mode |
| `Escalation.DrainIsRecorded` | cmd/gpu-reaper/main.go:360-379 | a turn that finds an undrained job at Drain records the drain at its own time if no call fails; so also with a gate closed, where no call is made |
| `Escalation.AcceptedConfigurationCancels` | cmd/gpu-reaper/main.go:386-416 | a daemon launched from any accepted configuration with a cancel stage, stages in step, a sample count that fits and the signature listed has a history that first cancels in exactly that turn, whether it is for the whole cluster or for one node |
| `Escalation.StandsAfter` | internal/policy/policy.go:424-520 | after each turn of a steady stream of any signatures, begun at any turn by which nothing was kept of the job, the record holds the kept cycles, breach clock, verdict and confirmation that the rungs say |
| `Escalation.NothingIsKept` | internal/policy/policy.go:334-365 | nothing is kept of an incarnation as long as no turn delivers to it a sample that counts, from the first turn on or from any turn by which nothing was kept |
| `Escalation.WarmupIsQuiet` | internal/policy/policy.go:345-356 | a turn within the warmup of a job, no sample of which is from the future, delivers none that counts |
| `Escalation.FedHistoryExists` | cmd/gpu-reaper/main.go:195-384 | any history that has kept nothing of a job can go on with such a stream, for any number of turns |
| `Lapse.DrainLapses` | internal/policy/policy.go:488-504 | an accepted configuration and a history that reports Alert, Drain, Alert three times, Drain and then Cancel, that drains the job in the first Drain turn and cancels it in the last, with less than a window between the last Drain and the Cancel |
| `Safety.CancelNeedsDrain` | cmd/gpu-reaper/main.go:360-379 | with no assumption on clock or telemetry: a cancel call implies both gates open and an earlier turn, at least one window before, that drained all nodes of that same incarnation, with the record confirmed at every turn boundary since |
| `Safety.ObserveModeTouchesNothing` | cmd/gpu-reaper/main.go:406-416 | with either gate closed no call is made, in any history |
| `Safety.CallOrigin` | cmd/gpu-reaper/main.go:360-379 | every call answers a finding of a job judged in the same turn that asks for exactly that call |
| `Safety.OpOrigin` | cmd/gpu-reaper/main.go:195-379 | what the engine hears in a turn: each delivery is of a judged job's own samples and judged at once; each confirmation is of a judged job all of whose nodes were drained |
| `Safety.ActSends` | cmd/gpu-reaper/main.go:360-379 | over the findings of a turn, calls are only added, only with both gates open, only as findings ask, and a drain is confirmed only after every node was drained |
| `Safety.HistoryGrows` | cmd/gpu-reaper/main.go:195-384 | the engine's run stays a run, and neither it nor the calls are ever rewritten |
| `Safety.HistoryContinues` | cmd/gpu-reaper/main.go:195-384 | every turn of the daemon extends a history |
| `Drains.NoSecondDrain` | internal/action/action.go:234-239 | over a whole history: if a record said drained before some turn and that or a later turn drains the job again, the record was wiped or replaced in between |
| `Drains.RecordedGetsNoDrain` | internal/action/action.go:234-239 | with no job listed twice, a record that says drained when a turn begins gets no drain in that turn, whatever else the turn does to it |
| `Drains.DrainIsRecordedOrFailed` | cmd/gpu-reaper/main.go:372-378 | a turn that finds an undrained job at Drain either drains all its nodes and records it, or had a failed call and records nothing |
| `Drains.OnlyJudgedJobsAreRemembered` | cmd/gpu-reaper/main.go:294-344 | a job in scope that was shared, unsampled, partial or conflicting has no record after the turn |
| `Drains.PassedIsForgotten` | cmd/gpu-reaper/main.go:205-209 | nor has any job that was not listed |
| `Attribution.JudgedAlone` | cmd/gpu-reaper/main.go:216-234 | a judged job names each node once and no other GPU job running anywhere names any of them |
| `Attribution.OwnEvidence` | cmd/gpu-reaper/main.go:310-341 | a judged job is judged on all samples of its nodes and no others, at least one for each node, none labelled for other jobs only |
| `Attribution.NoSampleServesTwice` | cmd/gpu-reaper/main.go:287-344 | all evidence of a cycle together is a sub-multiset of the samples |
| `Attribution.FatesMean` | cmd/gpu-reaper/main.go:294-341 | the exact condition of each of the five things that can become of a GPU job, jobs without GPUs never making a node shared |
| `Attribution.AskedNodes` | cmd/gpu-reaper/main.go:236-264 | telemetry is asked for exactly the nodes of the GPU jobs listed, or of those on the local node |
| `Ladder.AlertComesFirst` | internal/policy/policy.go:488-498 | in any run at any times, a record at or above Alert was raised by an evaluation that reported exactly Alert |
| `Ladder.DrainFollowsAlert` | internal/policy/policy.go:496-498 | every Drain or Cancel follows such an Alert, with the record raised ever since |
| `Ladder.CancelFollowsDrain` | internal/policy/policy.go:499-504 | every Cancel follows, in one incarnation without a wipe, an Alert, then a Drain, then its confirmation at least one window ago, and has an allowed signature |
| `Ladder.CancellableAlwaysAllowed` | internal/policy/policy.go:320-332 | no run ever allows cancelling anything but idle and hung jobs |
| `Ladder.AllowingTouches` | internal/policy/policy.go:321-332 | a list of signatures replaces the one before it if it holds none but idle and hung, and changes nothing otherwise |
| `Ladder.EvaluationTouches` | internal/policy/policy.go:396-424 | an early evaluation, or one of a job without GPUs or exempt, changes nothing; one of a job of unknown start forgets it; none touches another job |
| `Ladder.SevereExactly` | internal/policy/policy.go:475-506 | a confirmed breach drains, cancels, or stops at Alert exactly when stage, signature, earlier verdict and drain confirmation say so |
| `Ladder.WindowSpentAtDrain` | internal/policy/policy.go:488-504 | for every Cancel in every run: each evaluation since the confirmation reported Drain or Cancel if and only if each had a stage above Alert and an idle or hung signature |
| `Ladder.RecoveryIsReportedOnce` | internal/policy/policy.go:445-452 | a recovery is reported exactly for a busy job whose record says drained, and wipes that record |
| `Ladder.StepMoves` | internal/policy/policy.go:386-394 | the only ways one operation changes the charge on a record: a wipe, a judgement, or a confirmation of a Drain |
| `Ladder.OnlyIdleByDefault` | internal/policy/policy.go:308-332 | an engine that was never told which signatures may be cancelled cancels only idle jobs |
| `Contiguity.CancelIsSupported` | internal/policy/policy.go:397-520 | a Cancel rests on a drain confirmed a window ago and contiguous breaching evidence since a window before it |
| `Contiguity.VerdictIsSupported` | internal/policy/policy.go:397-520 | every verdict above Healthy rests on contiguous breaching evidence over its window |
| `Contiguity.ChargeIsSupported` | internal/policy/policy.go:424-520 | so does whatever is still on a record, at any point of a run |
| `Contiguity.MoreEvidence` | internal/policy/policy.go:345-365 | a new confirmation extends the old evidence without a hole, across samples the engine has forgotten |
| `Contiguity.FirstDwell` | internal/policy/policy.go:454-459 | at the first confirmation the dwell is between the window less the gap and the window |
| `Contiguity.NoVerdictBefore` | internal/policy/policy.go:349-364 | no verdict before start, warmup and a window less the gap, whatever the clock does |
| `Contiguity.NoCancelBefore` | internal/policy/policy.go:499-504 | no Cancel before start, warmup and two windows less the gap |
| `Contiguity.BadSampleKeepsHealthy` | internal/policy/policy.go:426-452 | while a busy or unreadable sample is no older than a window, every evaluation is Healthy |
| `Contiguity.BreachStartsAfterBadSample` | internal/policy/policy.go:455-457 | a running breach clock started strictly after every such sample of the record |
| `Window.WindowIsFilteredLog` | internal/policy/policy.go:345-365 | the window compacted in place is the incarnation's whole delivery log filtered by warmup and window, in order |
| `Waste.WasteIsConserved` | internal/policy/policy.go:458-473 | the waste reported cycle by cycle telescopes to GPUs times dwell, which is also what the gauge shows |
| `Waste.BreachAccounts` | internal/policy/policy.go:460-473 | coverage makes the smaller of the two GPU counts always the job's own |
| `Waste.WasteIsInSeconds` | internal/policy/policy.go:460-473 | holding GPUs for whole seconds wastes the product of the two in GPU-seconds, and a 3600th of it in GPU-hours |
| `Isolation.Noninterference` | internal/policy/policy.go:334-380 | what is reported of a job in an interleaved run is what its own operations alone would report |
| `Isolation.FreshStart` | internal/policy/policy.go:334-343 | after its record is gone or belongs to another start time, a job's future is that of a job never seen |
| `Isolation.DropAndForgetErase` | internal/policy/policy.go:367-380 | dropping or forgetting makes the record gone |
| `Runs.EveryRunExists` | internal/policy/policy.go:275-283 | every sequence of operations has a run |
| `Isolation.AfterIsLast` | internal/policy/policy.go:397-520 | those statements speak of the same memories as the runs |
| `Signatures.ClassifyMeans` | internal/policy/policy.go:615-635 | idle and hung mean exactly that processes, power and memory were read and say so |
| `Telemetry.FractionMeans` | internal/gpu/gpu.go:93-99 | the fraction of memory used, times the total, is what is used; it is nothing without a reading or a total |
| `Signatures.IdleWindow` | internal/policy/policy.go:615-622 | a window whose every sample ran nothing, drew less than the idle power and held less than the fraction of its memory, in plain numbers, is idle |
| `Signatures.HungWindow` | internal/policy/policy.go:623-626 | one whose every sample held that much of its memory and computed nothing, and of which one ran a process, is hung |
| `Signatures.StarvedWindow` | internal/policy/policy.go:627-631 | one that held memory and computed something is starved |
| `Signatures.NotIdleWindow` | internal/policy/policy.go:615-622 | one that held memory throughout, drew power throughout, ran a process once or was unreadable once is not idle |
| `Signatures.FindingMeasures` | internal/policy/policy.go:426-452 | a finding on covered evidence reports the mean utilization, memory and, if known, power: times the number of samples they are the sums |
| `Signatures.FindingPeak` | internal/policy/policy.go:445-452 | it reports the largest utilization, and is Busy if and only if that reaches the threshold |
| `Signatures.FindingCounts` | internal/policy/policy.go:538-603 | it reports how many GPUs were seen, and how often the node seen least often was |
| `Signatures.SevereHasPositiveEvidence` | internal/policy/policy.go:475-486 | in any run, Drain and Cancel rest on positively idle or positively hung windows |
| `Signatures.ProcessBlindStopsAtAlert` | internal/policy/policy.go:475-482 | a job whose process lists were never read never passes Alert |
| `Evidence.CheckCoverage` | internal/policy/policy.go:529-603 | the map-building, sorting and adjacent-gap loops compute the first failing check of an order-free specification |
| `Evidence.CheckNode` | internal/policy/policy.go:560-598 | the same for one node |
| `Evidence.CoverageIsCovered` | internal/policy/policy.go:529-603 | coverage finds no fault if and only if the declarative predicate holds |
| `Evidence.CoveredMeans` | internal/policy/policy.go:529-603 | the same condition sample by sample: distinct stamps, newest and oldest sample, successors within the gap, equally many samples at any two stamps of a node, and enough GPUs |
| `Evidence.ObservationsMean` | internal/policy/policy.go:577-603 | what is reported of sound evidence: its GPUs, and the fewest distinct stamps of any node |
| `Evidence.FaultMeans` | internal/policy/policy.go:558-600 | where a node is at fault, it is the first in the order of the job that was not seen throughout, and the count reported is that of the node seen least often up to there, or -1 |
| `Evidence.FaultSays` | internal/policy/policy.go:560-598 | what each fault says of the samples of the node |
| `Evidence.CoverageIgnoresOrder` | internal/policy/policy.go:538-552 | the order of the samples changes no outcome |
| `Evidence.EveryInstantIsObserved` | internal/policy/policy.go:584-597 | covered evidence leaves no instant of the window without an observation of each node within the gap |
| `Evidence.SortedGaps` | internal/policy/policy.go:592-597 | no adjacent gap too large in the sorted times if and only if every time but the newest has a successor within the gap |
| `Evidence.Summarize` | internal/policy/policy.go:648-685 | the one-pass summary equals sums, maxima and quantifiers over the window |
| `Engines.Compact` | internal/policy/policy.go:357-364 | overwriting the buffer in place keeps exactly the samples at or after the cutoff, in order |
| `Engines.Admit` | internal/policy/policy.go:349-355 | exactly the samples past warmup are appended |
| `Engines.WalkStages` | internal/policy/policy.go:605-613 | the walk ends on the last satisfied stage |
| `Engines.JobState.Reset` | internal/policy/policy.go:265-273 | everything learned about the breach is discarded, the samples are not |
| `Engines.JobState.Judge` | internal/policy/policy.go:424-520 | judging one record changes it and reports as the specification says |
| `Engines.JobState.ChooseVerdict` | internal/policy/policy.go:475-506 | the caps and the ladder in the order of the code |
| `Engines.Engine.New` | internal/policy/policy.go:285-318 | an engine is built if and only if the thresholds are valid, empty, with sorted stages |
| `Engines.Engine.AllowCancel` | internal/policy/policy.go:320-332 | succeeds exactly for idle and hung, and otherwise changes nothing |
| `Engines.Engine.State` | internal/policy/policy.go:334-343 | exactly this incarnation's record, fresh when missing |
| `Engines.Engine.Observe` | internal/policy/policy.go:345-365 | the new memory is that of the specification, the operation is logged, no other record changes |
| `Engines.Engine.Drop` | internal/policy/policy.go:367-370 | exactly that record is gone |
| `Engines.Engine.Forget` | internal/policy/policy.go:372-380 | exactly the records of inactive jobs are gone |
| `Engines.Engine.ConfirmDrain` | internal/policy/policy.go:382-394 | only an unconfirmed Drain of exactly this incarnation is confirmed |
| `Engines.Engine.Evaluate` | internal/policy/policy.go:396-520 | finding and new memory are those of the specification, and the run stays a run |
| `Stages.SortedIsOrdered` | internal/policy/policy.go:306-307 | the stages are sorted and none is lost or invented |
| `Stages.StageForMeaning` | internal/policy/policy.go:605-613 | the verdict is that of the longest stage reached, the last written among equals, or Watching |
| `Stages.NeverDropsIff` | internal/policy/policy.go:605-613 | a longer breach never calls for less if and only if no stage that counts is below Watching or an earlier one |
| `Stages.CallsFromSomeDwell` | internal/policy/policy.go:605-613 | stages in step that call for a verdict at all call for it, or more, exactly from one dwell on |
| `Config.Validate` | internal/config/config.go:185-261 | accepts exactly the settings that meet the timing, stage and signature rules, the product of interval and sample count being a 64-bit one |
| `Config.RefusedExactly` | internal/config/config.go:185-261 | settings are refused if and only if one of the named things is wrong with a threshold, with a stage as written, with the default stages against the window, or with a signature listed |
| `Config.AcceptableWords` | internal/config/config.go:367-381 | a stage may say alert, drain or cancel, in any case and with any space around it, and nothing else |
| `Config.PolicyStages` | internal/config/config.go:340-356 | the stages as written, or the defaults, or an error if a verdict is unknown |
| `Config.CancelSignatures` | internal/config/config.go:358-365 | one signature for each name, in order |
| `Config.NewEngine` | cmd/gpu-reaper/main.go:386-404 | every accepted configuration makes an engine that may cancel exactly the signatures listed |
| `Config.CancelsWhatIsListed` | internal/config/config.go:358-365 | idle jobs become cancellable exactly if "idle" is listed, hung ones exactly if "hung" is, and nothing else ever |
| `Config.SevereOnlyAfterWindow` | internal/config/config.go:234-256 | under an accepted configuration no Drain or Cancel before the breach has lasted a window |
| `Config.StagesNeverHealthy` | internal/config/config.go:222-233 | under an accepted configuration a confirmed breach is never Healthy |
| `Config.DefaultsStopAtDrain` | internal/policy/policy.go:158-163 | with no stages written, no run ever reports Cancel, nor anything above Alert before a breach has lasted an hour, and every confirmed breach is at least Alert |
| `Config.DefaultsAre` | internal/config/config.go:107-137 | what is shipped, in plain numbers; in particular nothing is enforced |
| `Config.AcceptableCanDrop` | internal/config/config.go:222-256 | an accepted configuration under which a longer breach calls for less |
| `Progress.SteadyBreachIsConfirmed` | internal/config/config.go:208-220 | under every accepted configuration a periodic breach is confirmed, and has a verdict, at exactly the cycles from max(MinSamples - 1, ceiling of (window - gap) / interval) on, if MinSamples is at most window / interval + 1, and never otherwise; in any run, whatever else the engine hears before, between and within these cycles |
| `Progress.DefaultsConfirm` | internal/policy/policy.go:137-147 | as shipped, exactly from the tenth sample on, eighteen minutes after the first |
| `Progress.ConfirmedFrom` | internal/policy/policy.go:577-598 | the same of every engine that can be built, whatever the validator says |
| `Progress.KeptWhen` | internal/policy/policy.go:345-365 | at every point of such a run, what is kept of the job is exactly the cycles young enough |
| `Progress.RuleWithoutOverflow` | internal/config/config.go:215-220 | where the product does not overflow, the rule accepts exactly the counts up to window / interval, one fewer than work |
| `Progress.OverflowIsAccepted` | internal/config/config.go:215-220 | a sample count whose wrapped product is accepted although no window can hold it |
| `Progress.OverflowNeverConfirms` | internal/config/config.go:215-220 | under it no steady breach is ever confirmed |
| `Progress.FittingCountIsRefused` | internal/config/config.go:215-220 | eleven samples fit twenty minutes of two-minute cycles and are refused |
| `Tolerance.MissedCycleIsTolerated` | cmd/gpu-reaper/main.go:270-283 | a confirmed steady breach survives one missed cycle, its clock running on, if and only if the gap is at least two intervals and one cycle fewer than the window can hold is enough; if not, its record is wiped |
| `Tolerance.AcceptedIsTolerated` | cmd/gpu-reaper/main.go:274-282 | under an accepted configuration without overflow, if and only if the gap is at least two intervals |
| `Tolerance.DefaultsForgiveNothing` | cmd/gpu-reaper/main.go:277-278 | as shipped, one missed cycle ends every steady breach |
| `Tolerance.HoledConfirms` | internal/policy/policy.go:577-598 | the same of the window alone |
| `Tolerance.FailedTurnTellsNothing` | cmd/gpu-reaper/main.go:195-283 | a turn that fails delivers nothing, judges nothing and drops nothing of a job it did not find gone |
| `Progress.EnoughFromThenOn` | internal/config/config.go:208-220 | the kept window holds enough cycles exactly from the first possible one on, if the count fits, and never otherwise |
| `Progress.JudgedWhen` | internal/policy/policy.go:396-454 | past the early returns, a breach is confirmed if and only if the stored window is covered and all of it below the threshold |
| `Progress.WindowConfirms` | internal/policy/policy.go:577-598 | a window of consecutive cycles confirms if and only if it has enough cycles and spans enough time |
| `Startup.Launch` | cmd/gpu-reaper/main.go:386-416 | a daemon starts if and only if its configuration is accepted, in the first world of a history and wired as its mode says |
| `Reapers.Reaper.Cycle` | cmd/gpu-reaper/main.go:195-384 | one cycle changes the engine and the calls exactly as one turn, fails exactly when a source fails, and stamps success |
| `Reapers.Reaper.SettleScope` | cmd/gpu-reaper/main.go:292-344 | every job in scope is observed and evaluated or dropped, in order, and the findings are those evaluations |
| `Reapers.Reaper.ActOnFindings` | cmd/gpu-reaper/main.go:360-379 | the findings are acted on in order, and drains that ran are confirmed |
| `Reapers.CountLoads` | cmd/gpu-reaper/main.go:226-234 | counts how often running GPU jobs name each node |
| `Reapers.FindScope` | cmd/gpu-reaper/main.go:236-263 | the GPU jobs, of this node if the daemon is per-node, and the nodes to sample |
| `Reapers.Decide` | cmd/gpu-reaper/main.go:294-340 | each job meets the fate the specification gives it, with its own samples in node order |
| `Reapers.AttributionConflict` | cmd/gpu-reaper/main.go:436-446 | finds a conflict if and only if some labelled sample does not name the job |
| `Reapers.TallyCounts` | cmd/gpu-reaper/main.go:292-344 | every job in scope is counted in exactly one of the five fates |
| `Actions.ClusterActor.Handle` | internal/action/action.go:231-246 | what is called, and what is reported, for each verdict |
| `Actions.ClusterActor.DrainJob` | internal/action/action.go:248-267 | draining stops at the first failure and then reports an error |
| `Actions.ClusterActor.CancelJob` | internal/action/action.go:269-280 | one cancel call, or a dry run |
| `Actions.DrainSends` | internal/action/action.go:256-266 | the calls are the nodes in order, all successful, or up to one that failed |
| `Actions.HandleSends` | internal/action/action.go:231-280 | with both gates open: nothing, one cancel, or one drain of the job; having acted means every node was drained |
| `Actions.EitherGateSuffices` | internal/action/action.go:212-217 | either gate alone keeps every call from the cluster |
| `Actions.NewClusterActor` | cmd/gpu-reaper/main.go:406-416 | observe mode closes both gates, enforce mode opens both |
| `Expansion.ExpandNodeList` | internal/slurm/sources.go:437-469 | succeeds if and only if the list stands for no hosts or is well formed and denotes at most 100,000 names, and returns exactly those, in order |
| `Expansion.NodeListIsExact` | internal/slurm/sources.go:437-469 | the same of the function the method computes |
| `Expansion.ExpandPart` | internal/slurm/sources.go:471-533 | one host, with early size checks that never refuse a host whose names fit |
| `Expansion.ReadGroup` | internal/slurm/sources.go:496-530 | one bracket: refused only if the whole host is malformed or too large, and no intermediate result exceeds the cap |
| `Expansion.AppendSpan` | internal/slurm/sources.go:503-516 | in 64-bit arithmetic without overflow, also for a span that ends at the largest integer, all names of the span are appended if and only if the total fits |
| `Expansion.Exceeds` | internal/slurm/sources.go:518-522 | the product is compared with the cap without overflow |
| `Expansion.CrossProduct` | internal/slurm/sources.go:523-529 | the two loops build the ordered product |
| `Expansion.CrossAt` | internal/slurm/sources.go:523-528 | the product is ordered with the left name varying slowest |
| `Expansion.PadMeans` | internal/slurm/sources.go:512-516 | a padded number reads back as itself and has the width asked for or the digits it needs |
| `Expansion.NumberDenotesItself` | internal/slurm/sources.go:437-443 | an unsigned number in a list denotes itself as written, leading zeros and all |
| `Notation.LiteralsAreThemselves` | internal/slurm/sources.go:453-467 | literals separated by commas expand to themselves, in order |
| `Notation.LiteralIsItself` | internal/slurm/sources.go:475-485 | a literal expands to itself |
| `Notation.LiteralExactly` | internal/slurm/sources.go:475-485 | a text without brackets and commas expands to itself if it holds only letters, digits, dots, underscores and dashes, and is refused otherwise |
| `Notation.RangeCountsUp` | internal/slurm/sources.go:437-443 | a range between a literal and a tail expands to one name for each number from the lower to the upper bound, each the literal, the number as wide as the lower bound is written, and the tail; or to nothing if there are more than 100,000 |
| `Notation.RangeIsRefused` | internal/slurm/sources.go:544-553 | a range that lacks a bound, counts down or leaves 64 bits is refused, and the whole list with it |
| `Notation.CommaInside` | internal/slurm/sources.go:496-517 | a comma inside a bracket: first the names of what is before it, then those of what is behind |
| `Notation.CommaOutside` | internal/slurm/sources.go:453-467 | a comma between hosts: the names of both, in order, or nothing if together they are too many |
| `Notation.SideBySide` | internal/slurm/sources.go:518-530 | two texts side by side: every name of the left in front of every name of the right, the right varying fastest |
| `Notation.NoHostsAtAll` | internal/slurm/sources.go:448-452 | three texts stand for no hosts |
| `Expansion.SplitList` | internal/slurm/sources.go:566-594 | the loop over depth and start splits at the commas outside brackets and rejects unbalanced ones |
| `Grammar.ParseIsExact` | internal/slurm/sources.go:448-594 | the parser accepts exactly the well-formed lists, each in one reading |
| `Grammar.SpanSound` | internal/slurm/sources.go:544-564 | a span that parses is well formed and has the bounds and width its text says |
| `Grammar.SpanComplete` | internal/slurm/sources.go:544-564 | every well-formed span parses, to its own bounds and width |
| `Squeue.ParseSqueue` | internal/slurm/sources.go:85-116 | the loops keep and reject as the specification says; the kept jobs overwrite the list being read |
| `Squeue.KeepSingles` | internal/slurm/sources.go:107-115 | the in-place filter keeps exactly the jobs whose ID occurs once |
| `Squeue.ParseSqueueLine` | internal/slurm/sources.go:122-159 | one line parses to a job or fails as specified |
| `Squeue.KeptExactly` | internal/slurm/sources.go:85-116 | a job is kept if and only if some line gives it and no other line gives its ID |
| `Squeue.KeptIsDistinct` | internal/slurm/sources.go:86-88 | no two kept jobs share an ID, as the drain theorems ask |
| `Squeue.EveryLineIsAccountedFor` | internal/slurm/sources.go:95-115 | lines that are not blank are kept jobs and rejections, together, once each |
| `Squeue.JobRoundTrip` | internal/slurm/sources.go:50-57 | a running job printed in the requested format is read back as it was, whatever bars its name contains |
| `Squeue.LineRoundTrip` | internal/slurm/sources.go:122-129 | nine fields without a bar and any name are split as they were joined |
| `Squeue.JobIDMeans` | internal/slurm/sources.go:118-120 | the accepted IDs are exactly digits, an optional array task and an optional component |
| `Squeue.LineSays` | internal/slurm/sources.go:122-159 | a line gives a job if and only if it has ten fields that say so, the last taking all that is left, its ID is one, and it is running |
| `Squeue.KeptIsRunning` | internal/slurm/sources.go:85-159 | every kept job is running, has a valid ID, and is what some line says |
| `Squeue.OutputIsLines` | internal/slurm/sources.go:92-97 | texts without a line break, one a line, are read line by line |
| `Text.TrimDropsSpace` | internal/slurm/sources.go:130-132 | trimming takes away nothing but space, at the two ends, and leaves none there |
| `Text.LowerMeans` | internal/config/config.go:367-381 | capitals become small letters; nothing else of ASCII changes, and only two other characters turn into letters |
| `Dcgm.ParseDCGM` | internal/gpu/dcgm.go:209-296 | a page fails if and only if some series names no GPU; otherwise one sample for each GPU, in order |
| `Dcgm.DcgmGPU.Add` | internal/gpu/dcgm.go:239-282 | one series is accumulated: labels, newest stamp, value and validity |
| `Dcgm.DcgmGPU.Reduce` | internal/gpu/dcgm.go:301-384 | the sample fits the accumulated readings |
| `Dcgm.LargestOf` | internal/gpu/dcgm.go:329-350 | the largest activity reading, unknown when one present is unusable |
| `Dcgm.CheckAgree` | internal/gpu/dcgm.go:424-434 | true if and only if there are values and all are equal |
| `Dcgm.GetMeans` | internal/gpu/dcgm.go:313-322 | a reading is known if and only if every series of the metric is sound and says that value |
| `Dcgm.UtilMeans` | internal/gpu/dcgm.go:324-350 | utilization is known if and only if all activity present can be read; it is then the largest reading, between 0 and 100 |
| `Dcgm.UtilIsLargest` | internal/gpu/dcgm.go:324-350 | a known utilization is at least every utilization read and a hundred times every ratio read, and is one of these |
| `Dcgm.LabelsAre` | internal/gpu/dcgm.go:239-322 | power, labels, partitioning and the newest stamp are those of the series of the GPU |
| `Dcgm.IndexMeans` | internal/gpu/dcgm.go:233-238 | a label names a GPU if and only if it is a number of 64 bits that is not negative, with or without a sign |
| `Dcgm.TrackUUID` | internal/gpu/dcgm.go:246-248 | the UUID kept is one that a series of the GPU carries, if any does |
| `Dcgm.BadSeriesSpoils` | internal/gpu/dcgm.go:268-282 | one series that is missing, stale or out of range makes its metric unknown |
| `Dcgm.StaleSeriesSpoils` | internal/gpu/dcgm.go:255-268 | in particular one stamped further from the reading of the page than allowed, on either side |
| `Dcgm.SaneSeriesAreRead` | internal/gpu/dcgm.go:268-282 | series that are not, and agree, are read as what they say |
| `Dcgm.MemoryMeans` | internal/gpu/dcgm.go:352-370 | memory is known if and only if used, free and any reserved can be read and do not add up to nothing; used is never more than total |
| `Dcgm.MemoryIs` | internal/gpu/dcgm.go:352-370 | known memory is the whole bytes of what was read as used, out of used, free and reserved together |
| `Dcgm.MoreSeriesLookBusier` | internal/gpu/dcgm.go:324-328 | more series take a GPU out of judgement or make it look at least as busy |
| `Dcgm.OrderDoesNotMatter` | internal/gpu/dcgm.go:222-283 | reordering or repeating series changes nothing that is judged |
| `Dcgm.OthersDoNotMatter` | internal/gpu/dcgm.go:239-244 | series of other GPUs change nothing |

## Left out

- `Expansion.ExpandNodeList`: strings are sequences of characters; bytes that are not valid UTF-8 and the limit of the formatting library on very large widths are not modelled.
- `Reapers.Reaper.Cycle`: the metrics, the log lines, the notifying actors and the warning about a node name that matches nothing are presentation and are not modelled.
- `Engines.Engine.New`: thresholds are reals, so a threshold that is not a number, which every range test of the code lets through, is not modelled; nor is an exemption pattern that does not compile.
- `Config.Validate`: a threshold that is not a number is not modelled here either; checks of URLs, paths, Slack settings, log format and the spelling of the mode are independent one-branch checks and are not modelled.
- `Squeue.ParseSqueueLine`: the start time and the GPU count are read by arbitrary functions passed in; date parsing and the GPU-count expression are not part of this model.
- `Dcgm.ParseDCGM`: the series are given in the order in which the loop visits them; the text parser, device and pod labels as output, and notes are not modelled, and the list of job labels is not in sorted order.
- `Evidence.CheckCoverage`: the samples carry integers as times; equality of instants in different time zones is not modelled.
- IEEE arithmetic: rounding, infinities and values that are not numbers; utilization, memory, power and waste are reals.
- Saturation of the difference of two instants more than 292 years apart.
- Exemptions are a fixed predicate on jobs; regular expressions are not modelled.
- The state objects of the engine are objects in a map, but sample buffers are sequences: aliasing of a reused backing array is modelled only as overwriting the front of the buffer that is read.
- slurmrestd, token files, nvidia-smi, the simulator, process execution, HTTP, signals, tickers and the concurrent scrape: both sources are arbitrary inputs to a turn.
- What happens inside the cluster after a call: a call only succeeds or fails.
- Reason strings: a tag stands for the branch that produced them.
