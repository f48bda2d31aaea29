/** `PstnLoadRunner.run`: stages in order until one fails to start, stops the profile or does not drain; the report, and
  what a passed report means. A stage's worker pool enters as the state it finished in. */
module LoadRunner {
  import opened Options
  import opened LoadTypes
  import Pool = PoolModel
  import PoolTheorems
  import Failures
  import Driver = LoadDriver
  import opened Analysis

  datatype Profile = Profile(releaseScale: bool, stages: seq<Stage>)

  datatype Config = Config(slo: Slo, drainAttempts: nat)

  datatype StageReport = StageReport(
    name: string,
    attemptedCalls: nat,
    completedCalls: nat,
    meaningfulCalls: nat,
    peakObservedConcurrency: int,
    failures: seq<Failure>,
    sloPassed: bool,
    successRate: real)

  datatype StageResult = StageResult(report: StageReport, failures: seq<Failure>, stopProfile: bool)

  datatype Report = Report(passed: bool, stages: seq<StageReport>, failures: seq<Failure>)

  /** What the world answers to one stage: its first telemetry read, how its pool finished, and the reads after it. */
  datatype StageWorld = StageWorld(startedAt: real, baseline: Option<Sample>, pool: Pool.State, drain: seq<Option<Sample>>)

  // ---------------------------------------------------------------- draining

  const MEMORY_FLOOR := 33554432.0

  /** `hasRecoveredToBaseline`; a reading that is not there never recovers. */
  predicate Recovered(baseline: Sample, current: Sample) {
    && !current.exhausted
    && current.activeCalls <= baseline.activeCalls
    && current.trackedReservations <= baseline.trackedReservations
    && current.pendingReleases <= baseline.pendingReleases
    && current.callsUsed.Some? && baseline.callsUsed.Some? && current.callsUsed.value <= baseline.callsUsed.value
    && current.socketLegs <= baseline.socketLegs
    && current.bufferedBytes <= baseline.bufferedBytes
    && current.queueBytes <= baseline.queueBytes
    && current.queueItems <= baseline.queueItems
    && current.rssBytes <= baseline.rssBytes + RealMax(MEMORY_FLOOR, baseline.rssBytes * 0.1)
  }

  function ReadAt(readings: seq<Option<Sample>>, k: nat): Option<Sample> {
    if k < |readings| then readings[k] else None
  }

  predicate Usable(reading: Option<Sample>) {
    reading.Some? && reading.value.complete
  }

  /** Some attempt shows the resources recovered, and every read before it was usable. */
  predicate Drains(baseline: Sample, readings: seq<Option<Sample>>, attempts: nat) {
    exists k :: 0 <= k < attempts && Usable(ReadAt(readings, k)) && Recovered(baseline, ReadAt(readings, k).value)
      && forall j :: 0 <= j < k ==> Usable(ReadAt(readings, j))
  }

  method WaitForDrain(baseline: Sample, readings: seq<Option<Sample>>, attempts: nat) returns (recovered: bool)
    ensures recovered <==> Drains(baseline, readings, attempts)
  {
    for attempt := 0 to attempts
      invariant forall j :: 0 <= j < attempt ==>
        Usable(ReadAt(readings, j)) && !Recovered(baseline, ReadAt(readings, j).value)
    {
      var sample := ReadAt(readings, attempt);
      if !Usable(sample) {
        return false;
      }
      if Recovered(baseline, sample.value) {
        return true;
      }
    }
    return false;
  }

  // ---------------------------------------------------------------- the end of a stage

  predicate StopsProfile(failures: seq<Failure>) {
    exists k :: 0 <= k < |failures| && (failures[k].code.TelemetryMissing? || failures[k].code.ResourceExhausted?)
  }

  predicate TelemetryIdle(baseline: Sample, pool: Pool.State) {
    pool.peakTelemetryCalls <= baseline.activeCalls && pool.peakTelemetrySockets <= baseline.socketLegs
  }

  function StageFailures(stage: Stage, baseline: Sample, pool: Pool.State, slo: Slo, activity: bool): seq<Failure> {
    pool.failures + Analyzed(stage, pool.results, slo).failures
    + OneIf(pool.peak < stage.concurrency && !pool.stopProfile, ConcurrencyNotReached, 1, stage.name)
    + OneIf(pool.latestTelemetryAt <= baseline.capturedAt, TelemetryStale, 1, stage.name)
    + OneIf(activity && TelemetryIdle(baseline, pool), TelemetryActivityMissing, 1, stage.name)
    + OneIf("exporter-failure" in stage.scenarios && pool.maximumExporterFailures <= baseline.exporterFailures,
            ExporterFailureNotObserved, 1, stage.name)
  }

  function StageOutcome(stage: Stage, baseline: Sample, pool: Pool.State, slo: Slo, activity: bool): StageResult {
    var analysis, failures := Analyzed(stage, pool.results, slo), StageFailures(stage, baseline, pool, slo, activity);
    StageResult(
      StageReport(stage.name, |pool.results|, |Completed(pool.results)|, analysis.meaningfulCalls, pool.peak,
                  Failures.Aggregate(failures), analysis.passed, analysis.successRate),
      failures, pool.stopProfile || StopsProfile(failures))
  }

  /** `runStage` after its pool has finished. */
  method FinishStage(stage: Stage, baseline: Sample, pool: Pool.State, slo: Slo, activity: bool)
    returns (result: StageResult)
    ensures result == StageOutcome(stage, baseline, pool, slo, activity)
  {
    hide Analyzed, TelemetryIdle, Failures.Aggregate;
    var analysis := AnalyzeResults(stage, pool.results, slo);
    var failures := pool.failures + analysis.failures;
    failures := AddIf(failures, pool.peak < stage.concurrency && !pool.stopProfile, ConcurrencyNotReached, 1, stage.name);
    failures := AddIf(failures, pool.latestTelemetryAt <= baseline.capturedAt, TelemetryStale, 1, stage.name);
    failures := AddIf(failures, activity && TelemetryIdle(baseline, pool), TelemetryActivityMissing, 1, stage.name);
    failures := AddIf(failures,
                      "exporter-failure" in stage.scenarios && pool.maximumExporterFailures <= baseline.exporterFailures,
                      ExporterFailureNotObserved, 1, stage.name);
    result := StageResult(
      StageReport(stage.name, |pool.results|, |Completed(pool.results)|, analysis.meaningfulCalls, pool.peak,
                  Failures.Aggregate(failures), analysis.passed, analysis.successRate),
      failures, pool.stopProfile || StopsProfile(failures));
  }

  // ---------------------------------------------------------------- the profile

  function MakeReport(stages: seq<StageReport>, failures: seq<Failure>): Report {
    Report(failures == [] && forall k :: 0 <= k < |stages| ==> stages[k].sloPassed, stages, Failures.Aggregate(failures))
  }

  /** The code with which a first read ends the run or the stage, if it does. */
  function Refusal(reading: Option<Sample>): Option<FailureCode> {
    if !Usable(reading) then Some(TelemetryMissing)
    else if reading.value.exhausted then Some(ResourceExhausted)
    else None
  }

  function ResultAt(profile: Profile, worlds: seq<StageWorld>, config: Config, i: nat): StageResult
    requires i < |profile.stages| == |worlds| && worlds[i].baseline.Some?
  {
    StageOutcome(profile.stages[i], worlds[i].baseline.value, worlds[i].pool, config.slo, profile.releaseScale)
  }

  /** The loop over the stages, from stage `i` on. */
  function RunFrom(profile: Profile, worlds: seq<StageWorld>, config: Config, baseline: Sample, i: nat,
                   stages: seq<StageReport>, failures: seq<Failure>): (seq<StageReport>, seq<Failure>)
    requires i <= |profile.stages| == |worlds|
    decreases |worlds| - i
  {
    if i == |worlds| then (stages, failures)
    else
      var stage, refusal := profile.stages[i], Refusal(worlds[i].baseline);
      if refusal.Some? then (stages, failures + [Failure(refusal.value, 1, Some(stage.name))])
      else
        var result := ResultAt(profile, worlds, config, i);
        var reports, all := stages + [result.report], failures + result.failures;
        if result.stopProfile then (reports, all)
        else if stage.verifyDrain && !Drains(baseline, worlds[i].drain, config.drainAttempts) then
          (reports, all + [Failure(DrainNotRecovered, 1, Some(stage.name))])
        else RunFrom(profile, worlds, config, baseline, i + 1, reports, all)
  }

  function RunReport(profile: Profile, baseline: Option<Sample>, worlds: seq<StageWorld>, config: Config): Report
    requires |profile.stages| == |worlds|
  {
    if Refusal(baseline).Some? then MakeReport([], [Failure(Refusal(baseline).value, 1, None)])
    else
      var (stages, failures) := RunFrom(profile, worlds, config, baseline.value, 0, [], []);
      MakeReport(stages, failures)
  }

  method Run(profile: Profile, baseline: Option<Sample>, worlds: seq<StageWorld>, config: Config) returns (report: Report)
    requires |profile.stages| == |worlds|
    ensures report == RunReport(profile, baseline, worlds, config)
  {
    hide StageOutcome, Failures.Aggregate, Drains, Recovered;
    if !Usable(baseline) {
      return MakeReport([], [Failure(TelemetryMissing, 1, None)]);
    }
    if baseline.value.exhausted {
      return MakeReport([], [Failure(ResourceExhausted, 1, None)]);
    }
    var stages: seq<StageReport>, failures: seq<Failure> := [], [];
    var i, running := 0, true;
    while running && i < |worlds|
      invariant i <= |worlds|
      invariant RunFrom(profile, worlds, config, baseline.value, 0, [], [])
             == if running then RunFrom(profile, worlds, config, baseline.value, i, stages, failures) else (stages, failures)
      decreases running, |worlds| - i
    {
      var stage, world := profile.stages[i], worlds[i];
      if !Usable(world.baseline) {
        failures, running := failures + [Failure(TelemetryMissing, 1, Some(stage.name))], false;
      } else if world.baseline.value.exhausted {
        failures, running := failures + [Failure(ResourceExhausted, 1, Some(stage.name))], false;
      } else {
        var result := FinishStage(stage, world.baseline.value, world.pool, config.slo, profile.releaseScale);
        stages, failures := stages + [result.report], failures + result.failures;
        var recovered := true;
        if !result.stopProfile && stage.verifyDrain {
          recovered := WaitForDrain(baseline.value, world.drain, config.drainAttempts);
        }
        if result.stopProfile {
          running := false;
        } else if !recovered {
          failures, running := failures + [Failure(DrainNotRecovered, 1, Some(stage.name))], false;
        } else {
          i := i + 1;
        }
      }
    }
    report := MakeReport(stages, failures);
  }

  // ---------------------------------------------------------------- what a passed report means

  /** The stage's pool finished in this state, after these events. */
  ghost predicate Played(stage: Stage, world: StageWorld, events: seq<Pool.Event>) {
    world.baseline.Some?
    && Pool.Run(stage, world.baseline.value, world.startedAt, events) == Some(world.pool) && Pool.Finished(world.pool)
  }

  /** The stage could start, found nothing to report, and drained if it had to. */
  predicate CleanStage(profile: Profile, worlds: seq<StageWorld>, config: Config, baseline: Sample, i: nat)
    requires i < |profile.stages| == |worlds|
  {
    && Refusal(worlds[i].baseline).None?
    && ResultAt(profile, worlds, config, i).failures == []
    && !ResultAt(profile, worlds, config, i).stopProfile
    && (profile.stages[i].verifyDrain ==> Drains(baseline, worlds[i].drain, config.drainAttempts))
  }

  /** `all` adds to `stages` the reports of stage `i` and the later ones, in order. */
  ghost predicate ReportsAll(profile: Profile, worlds: seq<StageWorld>, config: Config, i: nat,
                             stages: seq<StageReport>, all: seq<StageReport>)
    requires i <= |profile.stages| == |worlds|
  {
    && |all| == |stages| + |worlds| - i && all[..|stages|] == stages
    && forall k :: i <= k < |worlds| && worlds[k].baseline.Some? ==>
         all[|stages| + k - i] == ResultAt(profile, worlds, config, k).report
  }

  /** A stage that stops the profile has a failure to show for it. */
  ghost predicate StopsAreExplained(profile: Profile, worlds: seq<StageWorld>, config: Config)
    requires |profile.stages| == |worlds|
  {
    forall k :: 0 <= k < |worlds| && worlds[k].baseline.Some? ==>
      (ResultAt(profile, worlds, config, k).failures == [] ==> !ResultAt(profile, worlds, config, k).stopProfile)
  }

  ghost predicate AllClean(profile: Profile, worlds: seq<StageWorld>, config: Config, baseline: Sample, i: nat)
    requires i <= |profile.stages| == |worlds|
  {
    forall k :: i <= k < |worlds| ==> CleanStage(profile, worlds, config, baseline, k)
  }

  /** The loop adds no failure exactly when every remaining stage is clean, and then it reports each of them in order. */
  lemma {:induction false} CleanRuns(profile: Profile, worlds: seq<StageWorld>, config: Config, baseline: Sample, i: nat,
                                     stages: seq<StageReport>, failures: seq<Failure>)
    requires i <= |profile.stages| == |worlds| && StopsAreExplained(profile, worlds, config)
    ensures var r := RunFrom(profile, worlds, config, baseline, i, stages, failures);
      && (r.1 == [] <==> failures == [] && AllClean(profile, worlds, config, baseline, i))
      && (r.1 == [] ==> ReportsAll(profile, worlds, config, i, stages, r.0))
    decreases |worlds| - i
  {
    hide ResultAt, Drains;
    if i < |worlds| {
      if Refusal(worlds[i].baseline).None? {
        var result := ResultAt(profile, worlds, config, i);
        var reports, all := stages + [result.report], failures + result.failures;
        CleanRuns(profile, worlds, config, baseline, i + 1, reports, all);
        assert CleanStage(profile, worlds, config, baseline, i) ==> all == failures;
        assert reports[..|stages|] == stages;
      } else {
        assert !CleanStage(profile, worlds, config, baseline, i);
      }
    }
  }

  lemma PoolsExplainStops(profile: Profile, worlds: seq<StageWorld>, config: Config, events: seq<seq<Pool.Event>>)
    requires |profile.stages| == |worlds| == |events|
    requires forall k :: 0 <= k < |worlds| && worlds[k].baseline.Some? ==> Played(profile.stages[k], worlds[k], events[k])
    ensures StopsAreExplained(profile, worlds, config)
  {
    forall k | 0 <= k < |worlds| && worlds[k].baseline.Some?
      ensures ResultAt(profile, worlds, config, k).failures == [] ==> !ResultAt(profile, worlds, config, k).stopProfile
    {
      PoolTheorems.StoppingLeavesFailure(profile.stages[k], worlds[k].baseline.value, worlds[k].startedAt, events[k]);
      hide Analyzed, Pool.Run, TelemetryIdle;
    }
  }

  /** A clean stage means its calls: its concurrency was reached, its telemetry was fresh, every scenario was exercised,
    no call failed, and the objectives were met. */
  ghost predicate StageMeansPassed(stage: Stage, baseline: Sample, pool: Pool.State, slo: Slo, report: StageReport) {
    && report.name == stage.name && report.failures == [] && report.sloPassed
    && report.peakObservedConcurrency == stage.concurrency
    && pool.latestTelemetryAt > baseline.capturedAt
    && (forall k :: 0 <= k < |stage.scenarios| ==> Exercised(pool.results, stage.scenarios[k]))
    && pool.results != []
    && (forall k :: 0 <= k < |pool.results| ==> !pool.results[k].outcome.Failed? && pool.results[k].identityIsolated)
    && (slo.minimumSuccessRate > 0.0 ==> report.successRate == 1.0)
    && (pool.honest ==>
          report.successRate == 1.0 && forall k :: 0 <= k < |pool.results| ==> pool.results[k].outcome.Passed?)
  }

  lemma NoFailuresAnywhere(stage: Stage, baseline: Sample, pool: Pool.State, slo: Slo, activity: bool)
    requires StageFailures(stage, baseline, pool, slo, activity) == []
    ensures pool.failures == [] && Analyzed(stage, pool.results, slo).failures == []
    ensures pool.peak >= stage.concurrency || pool.stopProfile
    ensures pool.latestTelemetryAt > baseline.capturedAt
  {
    hide Analyzed, TelemetryIdle;
  }

  /** The report of a stage without failures. */
  lemma CleanReport(stage: Stage, baseline: Sample, pool: Pool.State, slo: Slo, activity: bool)
    requires StageFailures(stage, baseline, pool, slo, activity) == []
    ensures var report := StageOutcome(stage, baseline, pool, slo, activity).report;
      && report.name == stage.name && report.failures == [] && report.peakObservedConcurrency == pool.peak
      && report.sloPassed && report.successRate == SuccessRate(pool.results)
  {
    NoFailuresAnywhere(stage, baseline, pool, slo, activity);
    NothingToReport(stage, pool.results, slo);
    AnalysisRate(stage, pool.results, slo);
    hide StageFailures, SuccessRate, Exercised, MeaningfulCalls, Analyzed;
  }

  lemma CleanMeansPassed(stage: Stage, world: StageWorld, events: seq<Pool.Event>, slo: Slo, activity: bool)
    requires Played(stage, world, events)
    requires StageOutcome(stage, world.baseline.value, world.pool, slo, activity).failures == []
    ensures StageMeansPassed(stage, world.baseline.value, world.pool, slo,
                             StageOutcome(stage, world.baseline.value, world.pool, slo, activity).report)
  {
    var pool := world.pool;
    PoolSays(stage, world, events);
    assert StageFailures(stage, world.baseline.value, pool, slo, activity) == [];
    hide Played, Analyzed, StageOutcome;
    CleanReport(stage, world.baseline.value, pool, slo, activity);
    NoFailuresAnywhere(stage, world.baseline.value, pool, slo, activity);
    hide StageFailures, Completed, Passing, SloPassed, SuccessRate, Exercised, MeaningfulCalls;
    NothingToReport(stage, pool.results, slo);
    CleanStageSucceeds(stage, pool.results, slo);
    if pool.honest {
      AllPassed(pool.results);
    }
  }

  lemma AllPassed(results: seq<CallResult>)
    requires results != [] && Passing(results) == Completed(results)
    requires forall k :: 0 <= k < |results| ==> !results[k].outcome.Aborted? && !results[k].outcome.Failed?
    ensures Completed(results) != [] && forall k :: 0 <= k < |results| ==> results[k].outcome.Passed?
  {
    NoneAborted(results);
  }

  /** What the pool's invariants say of a stage that has nothing to report. */
  lemma PoolSays(stage: Stage, world: StageWorld, events: seq<Pool.Event>)
    requires Played(stage, world, events)
    ensures var pool := world.pool;
      && pool.peak <= stage.concurrency && (pool.failures == [] ==> !pool.aborted && !pool.stopProfile)
      && (pool.honest && !pool.aborted ==> forall k :: 0 <= k < |pool.results| ==> !pool.results[k].outcome.Aborted?)
  {
    PoolTheorems.RunKeeps(stage, world.baseline.value, world.startedAt, events);
    assert PoolTheorems.Flags(world.pool) && PoolTheorems.Counted(stage, world.pool);
    assert PoolTheorems.Labelled(stage, world.pool);
    hide Pool.Run, PoolTheorems.Inv;
  }

  lemma AnalysisRate(stage: Stage, results: seq<CallResult>, slo: Slo)
    ensures Analyzed(stage, results, slo).successRate == SuccessRate(results)
  {
  }

  /** Every stage of the profile ran, in order, means what its report says, and drained if it had to. */
  ghost predicate EveryStagePassed(profile: Profile, worlds: seq<StageWorld>, config: Config, baseline: Sample,
                                   reports: seq<StageReport>)
    requires |profile.stages| == |worlds|
  {
    && |reports| == |worlds|
    && forall k :: 0 <= k < |worlds| ==>
         && worlds[k].baseline.Some?
         && StageMeansPassed(profile.stages[k], worlds[k].baseline.value, worlds[k].pool, config.slo, reports[k])
         && (profile.stages[k].verifyDrain ==> Drains(baseline, worlds[k].drain, config.drainAttempts))
  }

  lemma CleanProfilePassed(profile: Profile, worlds: seq<StageWorld>, config: Config, baseline: Sample,
                           reports: seq<StageReport>, events: seq<seq<Pool.Event>>)
    requires |profile.stages| == |worlds| == |events| && AllClean(profile, worlds, config, baseline, 0)
    requires ReportsAll(profile, worlds, config, 0, [], reports)
    requires forall k :: 0 <= k < |worlds| && worlds[k].baseline.Some? ==> Played(profile.stages[k], worlds[k], events[k])
    ensures EveryStagePassed(profile, worlds, config, baseline, reports)
  {
    forall k | 0 <= k < |worlds|
      ensures worlds[k].baseline.Some?
        && StageMeansPassed(profile.stages[k], worlds[k].baseline.value, worlds[k].pool, config.slo, reports[k])
        && (profile.stages[k].verifyDrain ==> Drains(baseline, worlds[k].drain, config.drainAttempts))
    {
      hide Drains, StageMeansPassed, StageOutcome, Played;
      assert CleanStage(profile, worlds, config, baseline, k);
      CleanMeansPassed(profile.stages[k], worlds[k], events[k], config.slo, profile.releaseScale);
    }
  }

  /** A report says "passed" exactly when the first read was usable and not exhausted and every stage of the profile was
    clean; and then every stage ran, in order, and means what it says. The look at each stage's objectives adds nothing
    to the empty failure list. */
  lemma PassedMeansEverythingPassed(profile: Profile, baseline: Option<Sample>, worlds: seq<StageWorld>, config: Config,
                                    events: seq<seq<Pool.Event>>)
    requires |profile.stages| == |worlds| == |events|
    requires forall k :: 0 <= k < |worlds| && worlds[k].baseline.Some? ==> Played(profile.stages[k], worlds[k], events[k])
    ensures var report := RunReport(profile, baseline, worlds, config);
      && (report.passed <==> Refusal(baseline).None? && AllClean(profile, worlds, config, baseline.value, 0))
      && (report.passed ==>
            report.failures == [] && EveryStagePassed(profile, worlds, config, baseline.value, report.stages))
  {
    PoolsExplainStops(profile, worlds, config, events);
    hide Played, StopsAreExplained, AllClean, ReportsAll;
    if Refusal(baseline).None? {
      CleanRuns(profile, worlds, config, baseline.value, 0, [], []);
      var r := RunFrom(profile, worlds, config, baseline.value, 0, [], []);
      hide RunFrom;
      if r.1 == [] {
        CleanProfilePassed(profile, worlds, config, baseline.value, r.0, events);
      }
    }
  }

  /** With calls made by the driver, "passed" means that every call of every stage passed. */
  lemma PassedMeansAllCallsPassed(profile: Profile, baseline: Option<Sample>, worlds: seq<StageWorld>, config: Config,
                                  events: seq<seq<Pool.Event>>)
    requires |profile.stages| == |worlds| == |events|
    requires forall k :: 0 <= k < |worlds| && worlds[k].baseline.Some? ==>
      && Played(profile.stages[k], worlds[k], events[k])
      && Driver.Driven(profile.stages[k], worlds[k].baseline.value, worlds[k].startedAt, events[k])
    requires RunReport(profile, baseline, worlds, config).passed
    ensures var reports := RunReport(profile, baseline, worlds, config).stages;
      && |reports| == |worlds|
      && forall k :: 0 <= k < |worlds| ==>
           && reports[k].successRate == 1.0 && worlds[k].pool.results != []
           && forall r :: 0 <= r < |worlds[k].pool.results| ==> worlds[k].pool.results[r].outcome.Passed?
  {
    PassedMeansEverythingPassed(profile, baseline, worlds, config, events);
    hide RunReport, Drains, AllClean;
    forall k | 0 <= k < |worlds| ensures worlds[k].baseline.Some? && worlds[k].pool.honest {
      Driver.DrivenRuns(profile.stages[k], worlds[k].baseline.value, worlds[k].startedAt, events[k]);
    }
    hide Played, Driver.Driven;
  }
}
