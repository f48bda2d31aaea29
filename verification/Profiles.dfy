/** The built-in load profiles, and why none of their counted stages ever reports an unexercised scenario. */
module Profiles {
  import opened Options
  import opened LoadTypes
  import Decimal
  import Pool = PoolModel
  import PoolTheorems
  import Failures
  import Driver = LoadDriver
  import opened Analysis
  import opened LoadRunner

  datatype ProfileName = CiSmoke | Stepped | Burst | FailureMatrix | Soak

  const LOAD_SCENARIOS: seq<string> :=
    ["normal", "delayed-provider-readiness", "twilio-marks", "interruption-clear", "tool-call",
     "same-provider-handoff", "cross-provider-handoff", "long-audio-output", "provider-quota-error",
     "provider-closure", "exporter-failure"]

  const FAILURE_SCENARIOS: seq<string> := LOAD_SCENARIOS[1..]

  const STEP_CURVE: seq<nat> := [1, 5, 10, 20, 40, 60, 100]

  function CountedStage(name: string, concurrency: nat, callCount: int, rate: real, tenantMode: TenantMode,
                        scenarios: seq<string>): Stage {
    Stage(name, concurrency, Some(callCount), None, rate, tenantMode, scenarios, true)
  }

  function StepStage(concurrency: nat): Stage {
    CountedStage("step-" + Decimal.Print(concurrency), concurrency, Max(concurrency * 2, |LOAD_SCENARIOS|),
                 Max(20, concurrency * 20) as real, SameTenant, LOAD_SCENARIOS)
  }

  function BurstStage(name: string, tenantMode: TenantMode, target: nat): Stage {
    CountedStage(name, target, target * 3, (target * 20) as real, tenantMode,
                 ["normal", "twilio-marks", "interruption-clear"])
  }

  function StagesOf(name: ProfileName, target: nat): seq<Stage> {
    match name
    case CiSmoke =>
      [CountedStage("deterministic-smoke", 1, 4, 2.0, SameTenant,
                    ["normal", "interruption-clear", "tool-call", "provider-closure"])]
    case Stepped => seq(|STEP_CURVE|, k requires 0 <= k < |STEP_CURVE| => StepStage(STEP_CURVE[k]))
    case Burst =>
      [BurstStage("same-tenant-burst", SameTenant, target), BurstStage("cross-tenant-burst", CrossTenant, target)]
    case FailureMatrix =>
      [CountedStage("failure-matrix", target, Max(target * 2, |FAILURE_SCENARIOS|), (target * 20) as real, SameTenant,
                    FAILURE_SCENARIOS)]
    case Soak =>
      [Stage("two-hour-soak", target, None, Some(7200000.0), (target * 20) as real, SameTenant,
             ["normal", "twilio-marks", "interruption-clear", "tool-call"], true)]
  }

  /** `createBuiltInLoadProfile`; it throws when the qualified target is not a positive integer. */
  function BuiltIn(name: ProfileName, qualifiedTarget: Option<int>): Option<Profile> {
    var target := if qualifiedTarget.Some? then qualifiedTarget.value else 20;
    if target < 1 then None else Some(Profile(!name.CiSmoke?, StagesOf(name, target)))
  }

  /** A counted stage has a worker, no deadline, and at least as many calls as scenarios. */
  lemma CountedStagesSuffice(name: ProfileName, target: nat, i: nat)
    requires target >= 1 && i < |StagesOf(name, target)| && StagesOf(name, target)[i].callCount.Some?
    ensures var stage := StagesOf(name, target)[i];
      stage.concurrency > 0 && stage.durationMs.None? && stage.callCount.value >= |stage.scenarios|
  {
    hide Decimal.Print;
  }

  lemma FirstTurns(i: nat, n: nat)
    requires i < n
    ensures i % n == i
  {
  }

  /** When every index below the number of scenarios was recorded, the turns of the round robin cover every scenario. */
  lemma RoundRobinCovers(stage: Stage, results: seq<CallResult>, recorded: seq<nat>)
    requires |results| == |recorded|
    requires forall k :: 0 <= k < |results| ==> results[k].scenario == ScenarioAt(stage, recorded[k])
    requires forall i: nat :: i < |stage.scenarios| ==> i in recorded
    ensures Unexercised(stage.scenarios, results) == 0
  {
    forall i | 0 <= i < |stage.scenarios| ensures Exercised(results, stage.scenarios[i]) {
      var index: nat := i;
      assert index in recorded;
      var k :| 0 <= k < |recorded| && recorded[k] == index;
      FirstTurns(index, |stage.scenarios|);
      assert results[k].scenario == stage.scenarios[i];
    }
    AllExercised(stage.scenarios, results);
  }

  lemma {:induction false} CallFailuresBlame(stage: string, results: seq<CallResult>, f: Failure)
    requires f in CallFailures(stage, results) && f.code.ScenarioNotExercised?
    ensures exists r :: 0 <= r < |results| && Driver.BlamesScenario(results[r])
  {
    hide Failures.CodeName, Failures.NormalizeFailureCode;
    var n := |results| - 1;
    if f in CallFailures(stage, results[..n]) {
      CallFailuresBlame(stage, results[..n], f);
    } else {
      Failures.NormalisedCodesAreNamed(results[n].failureCode, ScenarioNotExercised);
      assert Driver.BlamesScenario(results[n]);
    }
  }

  /** The analysis blames a scenario only on its own count or on a call that did. */
  lemma AnalysisBlames(stage: Stage, results: seq<CallResult>, slo: Slo, f: Failure)
    requires f in Analyzed(stage, results, slo).failures && f.code.ScenarioNotExercised?
    ensures Unexercised(stage.scenarios, results) > 0 || f in CallFailures(stage.name, results)
  {
    hide CallFailures, Unexercised, SloPassed, EvidenceComplete, MeaningfulCalls, IsolationFailures;
  }

  lemma AnalysisIsSilent(stage: Stage, results: seq<CallResult>, slo: Slo)
    requires Unexercised(stage.scenarios, results) == 0
    requires forall r :: 0 <= r < |results| ==> !Driver.BlamesScenario(results[r])
    ensures forall f :: f in Analyzed(stage, results, slo).failures ==> !f.code.ScenarioNotExercised?
  {
    forall f | f in Analyzed(stage, results, slo).failures && f.code.ScenarioNotExercised? ensures false {
      AnalysisBlames(stage, results, slo, f);
      CallFailuresBlame(stage.name, results, f);
      assert false;
    }
  }

  lemma StageIsSilent(stage: Stage, baseline: Sample, pool: Pool.State, slo: Slo, activity: bool)
    requires Driver.WellDriven(pool) && Unexercised(stage.scenarios, pool.results) == 0
    ensures var outcome := StageOutcome(stage, baseline, pool, slo, activity);
      forall f :: f in outcome.failures || f in outcome.report.failures ==> !f.code.ScenarioNotExercised?
  {
    AnalysisIsSilent(stage, pool.results, slo);
    hide Analyzed, TelemetryIdle, Driver.BlamesScenario, Failures.Aggregate;
    var failures := StageFailures(stage, baseline, pool, slo, activity);
    assert forall f :: f in failures ==> !f.code.ScenarioNotExercised?;
    Failures.AggregateAddsNoCode(failures, ScenarioNotExercised);
  }

  /** Every counted stage of every built-in profile that runs without abort on calls of the driver records as many calls
    as it should, exercises all its scenarios, and never reports an unexercised one. */
  lemma BuiltInStagesCoverTheirScenarios(name: ProfileName, qualifiedTarget: Option<int>, i: nat, baseline: Sample,
                                         startedAt: real, events: seq<Pool.Event>, slo: Slo, activity: bool)
    requires BuiltIn(name, qualifiedTarget).Some? && i < |BuiltIn(name, qualifiedTarget).value.stages|
    requires var stage := BuiltIn(name, qualifiedTarget).value.stages[i];
      && stage.callCount.Some? && Pool.Run(stage, baseline, startedAt, events).Some?
      && Driver.Driven(stage, baseline, startedAt, events)
      && var s := Pool.Run(stage, baseline, startedAt, events).value; Pool.AllDone(s) && !s.aborted
    ensures var stage := BuiltIn(name, qualifiedTarget).value.stages[i];
      var s := Pool.Run(stage, baseline, startedAt, events).value;
      var outcome := StageOutcome(stage, baseline, s, slo, activity);
      && |s.results| == stage.callCount.value
      && Unexercised(stage.scenarios, s.results) == 0
      && forall f :: f in outcome.failures || f in outcome.report.failures ==> !f.code.ScenarioNotExercised?
  {
    var target: nat := if qualifiedTarget.Some? then qualifiedTarget.value else 20;
    var stage := BuiltIn(name, qualifiedTarget).value.stages[i];
    assert stage == StagesOf(name, target)[i];
    CountedStagesSuffice(name, target, i);
    PoolTheorems.CallCountIsExact(stage, baseline, startedAt, events);
    PoolTheorems.RunKeeps(stage, baseline, startedAt, events);
    Driver.DrivenRuns(stage, baseline, startedAt, events);
    var s := Pool.Run(stage, baseline, startedAt, events).value;
    assert PoolTheorems.Labelled(stage, s) && s.honest;
    hide StagesOf, BuiltIn, Pool.Run, StageOutcome, PoolTheorems.Inv, Driver.WellDriven, Unexercised;
    RoundRobinCovers(stage, s.results, s.recorded);
    StageIsSilent(stage, baseline, s, slo, activity);
  }
}
