/** The shared variables of `runStage` updated in place by its workers and its monitor, one method for the code between
  two `await`s. Every method takes the state exactly where the state machine's step takes it. */
module StagePool {
  import opened Options
  import opened LoadTypes
  import opened PoolModel

  class StagePool {
    const stage: Stage
    const startedAt: real
    var now: real
    var nextCallIndex: nat
    var nextLaunchAt: real
    var aborted: bool
    var stopProfile: bool
    var activeCalls: int
    var peakObservedConcurrency: int
    var results: seq<CallResult>
    var failures: seq<Failure>
    var maximumExporterFailureCount: real
    var latestTelemetryAt: real
    var peakTelemetryActiveCalls: real
    var peakTelemetrySocketLegs: real
    var workers: seq<Worker>
    var monitor: Monitor
    var monitorStopped: bool
    ghost var starts: seq<Start>
    ghost var recorded: seq<nat>
    ghost var dropped: set<nat>
    ghost var honest: bool

    ghost function Model(): State
      reads this
    {
      State(now, nextCallIndex, nextLaunchAt, aborted, stopProfile, activeCalls, peakObservedConcurrency, results,
            failures, maximumExporterFailureCount, latestTelemetryAt, peakTelemetryActiveCalls, peakTelemetrySocketLegs,
            workers, monitor, monitorStopped, starts, recorded, dropped, honest)
    }

    constructor (stage: Stage, baseline: Sample, startedAt: real)
      ensures this.stage == stage && this.startedAt == startedAt && Model() == Initial(stage, baseline, startedAt)
    {
      this.stage, this.startedAt, now := stage, startedAt, startedAt;
      nextCallIndex, nextLaunchAt, aborted, stopProfile := 0, startedAt, false, false;
      activeCalls, peakObservedConcurrency, results, failures := 0, 0, [], [];
      maximumExporterFailureCount, latestTelemetryAt := baseline.exporterFailures, baseline.capturedAt;
      peakTelemetryActiveCalls, peakTelemetrySocketLegs := baseline.activeCalls, baseline.socketLegs;
      workers, monitor, monitorStopped := seq(stage.concurrency, _ => AtHead), Waiting, false;
      starts, recorded, dropped, honest := [], [], {}, true;
    }

    /** The next index, or nothing when the stage is aborted, has enough calls, or is past its deadline. */
    method TakeCall() returns (callIndex: Option<nat>)
      modifies this`nextCallIndex
      ensures callIndex == if MayTake(stage, startedAt, old(Model())) then Some(old(nextCallIndex)) else None
      ensures nextCallIndex == old(nextCallIndex) + if callIndex.Some? then 1 else 0
    {
      if aborted {
        return None;
      }
      if stage.callCount.Some? && nextCallIndex >= stage.callCount.value {
        return None;
      }
      if PastDeadline(stage, startedAt, now) {
        return None;
      }
      callIndex := Some(nextCallIndex);
      nextCallIndex := nextCallIndex + 1;
    }

    /** The next launch slot: how long to sleep. */
    method ReserveLaunch() returns (delay: real)
      modifies this`nextLaunchAt
      ensures delay == RealMax(0.0, old(nextLaunchAt) - now) && nextLaunchAt == old(nextLaunchAt) + Interval(stage)
    {
      var launchAt := nextLaunchAt;
      nextLaunchAt := nextLaunchAt + Interval(stage);
      delay := RealMax(0.0, launchAt - now);
    }

    method WorkerTakes(worker: nat)
      requires Enabled(Model(), Event.TakeCall(worker))
      modifies this
      ensures Model() == Step(stage, startedAt, old(Model()), Event.TakeCall(worker))
    {
      var callIndex := TakeCall();
      if callIndex.None? {
        workers := workers[worker := Done];
        return;
      }
      var delay := ReserveLaunch();
      workers := workers[worker := Sleeping(callIndex.value, now + delay)];
    }

    method WorkerLaunches(worker: nat)
      requires Enabled(Model(), Launch(worker))
      modifies this
      ensures Model() == Step(stage, startedAt, old(Model()), Launch(worker))
    {
      var callIndex := workers[worker].index;
      if aborted || PastDeadline(stage, startedAt, now) {
        workers := workers[worker := Done];
        dropped := dropped + {callIndex};
        return;
      }
      CountCall(callIndex);
      workers := workers[worker := Calling(callIndex)];
    }

    method CountCall(callIndex: nat)
      modifies this`activeCalls, this`peakObservedConcurrency, this`starts
      ensures var s := old(Model());
        Model() == s.(activeCalls := s.activeCalls + 1, peak := Max(s.peak, s.activeCalls + 1),
                      starts := s.starts + [Start(callIndex, s.now)])
    {
      activeCalls := activeCalls + 1;
      peakObservedConcurrency := Max(peakObservedConcurrency, activeCalls);
      starts := starts + [Start(callIndex, now)];
    }

    method ResultFor(scenario: string, completion: Completion) returns (result: CallResult)
      ensures result == ResultOf(Model(), scenario, completion)
    {
      if completion.Returned? {
        return completion.result;
      }
      return CallResult(scenario, if aborted then Aborted else Failed, Missing, Missing, 0, 0, true,
                        Some(if aborted then "resource_exhausted" else "call_failure"));
    }

    /** `results.push(result)`. */
    method Record(callIndex: nat, scenario: string, result: CallResult)
      modifies this`results, this`recorded, this`honest
      ensures var s := old(Model());
        Model() == s.(results := s.results + [result], recorded := s.recorded + [callIndex],
                      honest := s.honest && Honours(result, scenario, s.aborted))
    {
      hide Honours;
      results, recorded, honest :=
        results + [result], recorded + [callIndex], honest && Honours(result, scenario, aborted);
    }

    method WorkerFinishes(worker: nat, completion: Completion)
      requires worker < |workers| && workers[worker].Calling?
      modifies this`activeCalls, this`results, this`workers, this`recorded, this`honest
      ensures Model() == OnCallEnds(stage, old(Model()), worker, completion)
    {
      hide ScenarioAt, ResultOf, Honours;
      var callIndex := workers[worker].index;
      var scenario := ScenarioAt(stage, callIndex);
      var result := ResultFor(scenario, completion);
      activeCalls := activeCalls - 1;
      Record(callIndex, scenario, result);
      workers := workers[worker := if aborted then Done else Observing];
    }

    method StopStage(code: FailureCode)
      modifies this`failures, this`stopProfile, this`aborted
      ensures Model() == Stop(stage, old(Model()), code)
    {
      var failure := Failure(code, 1, Some(stage.name));
      if !HasFailure(failures, failure) {
        failures := failures + [failure];
      }
      stopProfile := true;
      aborted := true;
    }

    method ObserveTelemetry(reading: Option<Sample>)
      modifies this
      ensures Model() == Observe(stage, old(Model()), reading)
    {
      hide HasFailure;
      if reading.None? || !reading.value.complete {
        StopStage(TelemetryMissing);
        return;
      }
      var telemetry := reading.value;
      maximumExporterFailureCount := RealMax(maximumExporterFailureCount, telemetry.exporterFailures);
      latestTelemetryAt := RealMax(latestTelemetryAt, telemetry.capturedAt);
      peakTelemetryActiveCalls := RealMax(peakTelemetryActiveCalls, telemetry.activeCalls);
      peakTelemetrySocketLegs := RealMax(peakTelemetrySocketLegs, telemetry.socketLegs);
      if telemetry.exhausted {
        StopStage(ResourceExhausted);
      }
    }

    method WorkerObserves(worker: nat, reading: Option<Sample>)
      requires Enabled(Model(), Event.WorkerObserves(worker, reading))
      modifies this
      ensures Model() == Step(stage, startedAt, old(Model()), Event.WorkerObserves(worker, reading))
    {
      hide Observe;
      workers := workers[worker := AtHead];
      ghost var moved := Model();
      ObserveTelemetry(reading);
      ObserveIgnoresWorkers(stage, old(Model()), moved, reading);
    }

    method MonitorElapses()
      requires Enabled(Model(), Event.MonitorElapses)
      modifies this
      ensures Model() == Step(stage, startedAt, old(Model()), Event.MonitorElapses)
    {
      monitor := if monitorStopped || aborted then Ended else Reading;
    }

    method MonitorObserves(reading: Option<Sample>)
      requires Enabled(Model(), Event.MonitorObserves(reading))
      modifies this
      ensures Model() == Step(stage, startedAt, old(Model()), Event.MonitorObserves(reading))
    {
      hide Observe;
      ObserveTelemetry(reading);
      monitor := if aborted || monitorStopped then Ended else Waiting;
    }
  }

  lemma ObserveIgnoresWorkers(stage: Stage, s: State, moved: State, reading: Option<Sample>)
    requires moved == s.(workers := moved.workers)
    ensures Observe(stage, moved, reading) == Observe(stage, s, reading).(workers := moved.workers)
  {
  }
}
