/** The worker pool of `runStage` as a state machine: N workers and the telemetry monitor share one call counter, one
  launch clock and one abort flag. The code between two `await`s is one step; time passes in between, and a sleep ends
  no earlier than it asked to. */
module PoolModel {
  import opened Options
  import opened LoadTypes

  /** What a worker is suspended in. `AtHead` is about to take a call, `Sleeping` waits for its launch slot. */
  datatype Worker = AtHead | Sleeping(index: nat, due: real) | Calling(index: nat) | Observing | Done

  datatype Monitor = Waiting | Reading | Ended

  datatype Start = Start(index: nat, at: real)

  /** `starts` is the history of calls started, `recorded[k]` the index of the call whose result is `results[k]`, and
    `dropped` the indices taken by workers that returned before calling. `honest` says every result so far carried the
    requested scenario, and was aborted only after the stage was. */
  datatype State = State(
    now: real,
    nextCallIndex: nat,
    nextLaunchAt: real,
    aborted: bool,
    stopProfile: bool,
    activeCalls: int,
    peak: int,
    results: seq<CallResult>,
    failures: seq<Failure>,
    maximumExporterFailures: real,
    latestTelemetryAt: real,
    peakTelemetryCalls: real,
    peakTelemetrySockets: real,
    workers: seq<Worker>,
    monitor: Monitor,
    monitorStopped: bool,
    starts: seq<Start>,
    recorded: seq<nat>,
    dropped: set<nat>,
    honest: bool)

  /** What a call came back with. */
  datatype Completion = Returned(result: CallResult) | Threw

  datatype Event =
    | TakeCall(worker: nat)
    | Launch(worker: nat)
    | CallEnds(worker: nat, completion: Completion)
    | WorkerObserves(worker: nat, reading: Option<Sample>)
    | MonitorElapses
    | MonitorObserves(reading: Option<Sample>)
    | StopMonitor
    | TimePasses(duration: real)

  function Interval(stage: Stage): (ms: real)
    ensures ms > 0.0
  {
    1000.0 / RealMax(0.001, stage.arrivalRatePerSecond)
  }

  function Initial(stage: Stage, baseline: Sample, startedAt: real): State {
    State(startedAt, 0, startedAt, false, false, 0, 0, [], [], baseline.exporterFailures, baseline.capturedAt,
          baseline.activeCalls, baseline.socketLegs, seq(stage.concurrency, _ => AtHead), Waiting, false, [], [], {}, true)
  }

  predicate PastDeadline(stage: Stage, startedAt: real, now: real) {
    stage.durationMs.Some? && now >= startedAt + stage.durationMs.value
  }

  /** `takeCall` hands out an index unless the stage is aborted, has enough calls, or is past its deadline. */
  predicate MayTake(stage: Stage, startedAt: real, s: State) {
    && !s.aborted && !(stage.callCount.Some? && s.nextCallIndex >= stage.callCount.value)
    && !PastDeadline(stage, startedAt, s.now)
  }

  /** `takeCall` and `reserveLaunch` up to the sleep: one index, one launch slot. */
  function Take(stage: Stage, startedAt: real, s: State, w: nat): State
    requires w < |s.workers|
  {
    if !MayTake(stage, startedAt, s) then s.(workers := s.workers[w := Done])
    else
      s.(nextCallIndex := s.nextCallIndex + 1,
         nextLaunchAt := s.nextLaunchAt + Interval(stage),
         workers := s.workers[w := Sleeping(s.nextCallIndex, s.now + RealMax(0.0, s.nextLaunchAt - s.now))])
  }

  /** After the sleep: the call starts unless the stage was aborted or ran out of time meanwhile. */
  function OnLaunch(stage: Stage, startedAt: real, s: State, w: nat): State
    requires w < |s.workers| && s.workers[w].Sleeping?
  {
    var index := s.workers[w].index;
    if s.aborted || PastDeadline(stage, startedAt, s.now) then
      s.(workers := s.workers[w := Done], dropped := s.dropped + {index})
    else
      s.(activeCalls := s.activeCalls + 1, peak := Max(s.peak, s.activeCalls + 1),
         workers := s.workers[w := Calling(index)], starts := s.starts + [Start(index, s.now)])
  }

  /** The result of a call; one that threw is failed, or aborted if the stage is. */
  function ResultOf(s: State, scenario: string, completion: Completion): CallResult {
    match completion
    case Returned(result) => result
    case Threw =>
      CallResult(scenario, if s.aborted then Aborted else Failed, Missing, Missing, 0, 0, true,
                 Some(if s.aborted then "resource_exhausted" else "call_failure"))
  }

  /** The result carries the requested scenario, and says aborted only after the stage was. */
  predicate Honours(result: CallResult, scenario: string, aborted: bool) {
    result.scenario == scenario && (result.outcome.Aborted? ==> aborted)
  }

  function OnCallEnds(stage: Stage, s: State, w: nat, completion: Completion): State
    requires w < |s.workers| && s.workers[w].Calling?
  {
    var index := s.workers[w].index;
    var result := ResultOf(s, ScenarioAt(stage, index), completion);
    s.(activeCalls := s.activeCalls - 1, results := s.results + [result], recorded := s.recorded + [index],
       honest := s.honest && Honours(result, ScenarioAt(stage, index), s.aborted),
       workers := s.workers[w := if s.aborted then Done else Observing])
  }

  function HasFailure(failures: seq<Failure>, failure: Failure): bool {
    exists k :: 0 <= k < |failures| && failures[k].code == failure.code && failures[k].stage == failure.stage
  }

  function AddOnce(failures: seq<Failure>, failure: Failure): seq<Failure> {
    if HasFailure(failures, failure) then failures else failures + [failure]
  }

  /** The stage fails and stops. */
  function Stop(stage: Stage, s: State, code: FailureCode): State {
    s.(failures := AddOnce(s.failures, Failure(code, 1, Some(stage.name))), stopProfile := true, aborted := true)
  }

  /** `observeTelemetry` after the read. */
  function Observe(stage: Stage, s: State, reading: Option<Sample>): State {
    if reading.None? || !reading.value.complete then Stop(stage, s, TelemetryMissing)
    else
      var t := reading.value;
      var seen := s.(maximumExporterFailures := RealMax(s.maximumExporterFailures, t.exporterFailures),
                     latestTelemetryAt := RealMax(s.latestTelemetryAt, t.capturedAt),
                     peakTelemetryCalls := RealMax(s.peakTelemetryCalls, t.activeCalls),
                     peakTelemetrySockets := RealMax(s.peakTelemetrySockets, t.socketLegs));
      if t.exhausted then Stop(stage, seen, ResourceExhausted) else seen
  }

  /** Every worker has returned. */
  ghost predicate AllDone(s: State) {
    forall w :: 0 <= w < |s.workers| ==> s.workers[w].Done?
  }

  /** The stage's pool is over: the workers returned and the monitor ended. */
  ghost predicate Finished(s: State) {
    AllDone(s) && s.monitorStopped && s.monitor.Ended?
  }

  ghost predicate Enabled(s: State, e: Event) {
    match e
    case TakeCall(w) => w < |s.workers| && s.workers[w].AtHead?
    case Launch(w) => w < |s.workers| && s.workers[w].Sleeping? && s.now >= s.workers[w].due
    case CallEnds(w, _) => w < |s.workers| && s.workers[w].Calling?
    case WorkerObserves(w, _) => w < |s.workers| && s.workers[w].Observing?
    case MonitorElapses => s.monitor.Waiting?
    case MonitorObserves(_) => s.monitor.Reading?
    case StopMonitor => AllDone(s)
    case TimePasses(d) => d >= 0.0
  }

  ghost function Step(stage: Stage, startedAt: real, s: State, e: Event): State
    requires Enabled(s, e)
  {
    match e
    case TakeCall(w) => Take(stage, startedAt, s, w)
    case Launch(w) => OnLaunch(stage, startedAt, s, w)
    case CallEnds(w, completion) => OnCallEnds(stage, s, w, completion)
    case WorkerObserves(w, reading) => Observe(stage, s, reading).(workers := s.workers[w := AtHead])
    case MonitorElapses => s.(monitor := if s.monitorStopped || s.aborted then Ended else Reading)
    case MonitorObserves(reading) =>
      var r := Observe(stage, s, reading);
      r.(monitor := if r.aborted || r.monitorStopped then Ended else Waiting)
    case StopMonitor => s.(monitorStopped := true)
    case TimePasses(d) => s.(now := s.now + d)
  }

  /** The state after these events, or `None` when one of them was not possible. */
  ghost function Run(stage: Stage, baseline: Sample, startedAt: real, events: seq<Event>): Option<State> {
    if events == [] then Some(Initial(stage, baseline, startedAt))
    else
      match Run(stage, baseline, startedAt, events[..|events| - 1])
      case None => None
      case Some(s) =>
        var e := events[|events| - 1];
        if Enabled(s, e) then Some(Step(stage, startedAt, s, e)) else None
  }
}
