/** `PstnProtocolLoadDriver.runCall`: the two shapes in which a call comes back, and what a stage records whose calls all
  come from the driver. The caller's run, the provider's records and the clean-up enter as the attempt. */
module LoadDriver {
  import opened Options
  import opened LoadTypes
  import opened PoolModel
  import Failures

  /** How one call went: no second tenant for a cross-tenant call, a caller that threw - `abortSeen` is what the signal
    said then - or a caller that finished, and whether what it did is what the scenario asks for. */
  datatype Attempt =
    | NoRoute
    | CallerThrew(abortSeen: bool)
    | CallerFinished(behaviorPassed: bool, webhook: Latency, firstAudio: Latency, inboundFrameCount: int,
                     outboundFrameCount: int, fingerprintMatched: bool)

  function RunCall(scenario: string, attempt: Attempt): Completion {
    match attempt
    case NoRoute => Threw
    case CallerThrew(abortSeen) =>
      Returned(CallResult(scenario, if abortSeen then Aborted else Failed, Missing, Missing, 0, 0, true,
                          Some(if abortSeen then "resource_exhausted" else "call_failure")))
    case CallerFinished(passed, webhook, firstAudio, inbound, outbound, matched) =>
      Returned(CallResult(scenario, if passed then Passed else Failed, webhook, firstAudio, inbound, outbound, matched,
                          if passed then None else Some("scenario_contract_failed")))
  }

  /** The driver made this call for this scenario; it saw the abort only if there was one by now. */
  predicate Answers(s: State, scenario: string, attempt: Attempt, completion: Completion) {
    completion == RunCall(scenario, attempt) && (attempt.CallerThrew? && attempt.abortSeen ==> s.aborted)
  }

  ghost predicate DrivenStep(stage: Stage, s: State, e: Event) {
    e.CallEnds? && e.worker < |s.workers| && s.workers[e.worker].Calling? ==>
      exists attempt :: Answers(s, ScenarioAt(stage, s.workers[e.worker].index), attempt, e.completion)
  }

  /** Every call of the run was made by the driver. */
  ghost predicate Driven(stage: Stage, baseline: Sample, startedAt: real, events: seq<Event>) {
    events != [] ==>
      var init := events[..|events| - 1];
      && Driven(stage, baseline, startedAt, init)
      && (Run(stage, baseline, startedAt, init).Some? ==>
            DrivenStep(stage, Run(stage, baseline, startedAt, init).value, events[|events| - 1]))
  }

  /** A failed call whose own code is "scenario_not_exercised". */
  predicate BlamesScenario(r: CallResult) {
    r.outcome.Failed? && r.failureCode == Some(Failures.CodeName(ScenarioNotExercised))
  }

  /** The results carry the scenarios asked for, are aborted only after the stage was, and none blames a scenario; the
    pool's own failures are those of its telemetry. */
  ghost predicate WellDriven(s: State) {
    && s.honest && (forall k :: 0 <= k < |s.results| ==> !BlamesScenario(s.results[k]))
    && (forall k :: 0 <= k < |s.failures| ==> s.failures[k].code.TelemetryMissing? || s.failures[k].code.ResourceExhausted?)
  }

  lemma CallWellDriven(stage: Stage, s: State, w: nat, completion: Completion)
    requires WellDriven(s) && w < |s.workers| && s.workers[w].Calling? && DrivenStep(stage, s, CallEnds(w, completion))
    ensures WellDriven(OnCallEnds(stage, s, w, completion))
  {
    var scenario := ScenarioAt(stage, s.workers[w].index);
    var attempt :| Answers(s, scenario, attempt, completion);
    var result := ResultOf(s, scenario, completion);
    assert !BlamesScenario(result) by {
      assert "scenario_contract_failed"[9] != "scenario_not_exercised"[9];
      assert |"resource_exhausted"| != |"scenario_not_exercised"| && |"call_failure"| != |"scenario_not_exercised"|;
    }
    assert Honours(result, scenario, s.aborted);
    hide ScenarioAt, ResultOf, BlamesScenario, Honours;
  }

  lemma ObserveWellDriven(stage: Stage, s: State, reading: Option<Sample>)
    requires WellDriven(s)
    ensures WellDriven(Observe(stage, s, reading))
  {
    hide BlamesScenario, HasFailure;
  }

  lemma StepWellDriven(stage: Stage, startedAt: real, s: State, e: Event)
    requires WellDriven(s) && Enabled(s, e) && DrivenStep(stage, s, e)
    ensures WellDriven(Step(stage, startedAt, s, e))
  {
    hide Observe, OnCallEnds, MayTake, Interval, PastDeadline, BlamesScenario, DrivenStep;
    match e
    case CallEnds(w, completion) => CallWellDriven(stage, s, w, completion);
    case WorkerObserves(_, reading) => ObserveWellDriven(stage, s, reading);
    case MonitorObserves(reading) => ObserveWellDriven(stage, s, reading);
    case _ =>
  }

  /** In every run whose calls come from the driver. */
  lemma {:induction false} DrivenRuns(stage: Stage, baseline: Sample, startedAt: real, events: seq<Event>)
    requires Run(stage, baseline, startedAt, events).Some? && Driven(stage, baseline, startedAt, events)
    ensures WellDriven(Run(stage, baseline, startedAt, events).value)
  {
    if events != [] {
      var init := events[..|events| - 1];
      DrivenRuns(stage, baseline, startedAt, init);
      hide WellDriven, DrivenStep, Step;
      StepWellDriven(stage, startedAt, Run(stage, baseline, startedAt, init).value, events[|events| - 1]);
    }
  }
}
