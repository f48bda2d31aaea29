/** The values of the load runner: stages, telemetry samples, call results and failure summaries. */
module LoadTypes {
  import opened Options

  datatype FailureCode =
    | TelemetryMissing | ResourceExhausted | NoMeaningfulTraffic | IdentityIsolation | SloBreach | CallFailure
    | DrainNotRecovered | ExporterFailureNotObserved | ScenarioNotExercised | LatencyEvidenceMissing
    | ScenarioContractFailed | ConcurrencyNotReached | TelemetryStale | TelemetryActivityMissing

  datatype Failure = Failure(code: FailureCode, count: int, stage: Option<string>)

  datatype TenantMode = SameTenant | CrossTenant

  datatype Stage = Stage(
    name: string,
    concurrency: nat,
    callCount: Option<int>,
    durationMs: Option<real>,
    arrivalRatePerSecond: real,
    tenantMode: TenantMode,
    scenarios: seq<string>,
    verifyDrain: bool)

  /** `complete` says that every required reading is there and finite. */
  datatype Sample = Sample(
    complete: bool,
    exhausted: bool,
    capturedAt: real,
    activeCalls: real,
    callsUsed: Option<real>,
    trackedReservations: real,
    pendingReleases: real,
    socketLegs: real,
    bufferedBytes: real,
    queueBytes: real,
    queueItems: real,
    rssBytes: real,
    exporterFailures: real)

  datatype Outcome = Passed | Failed | Aborted

  datatype Latency = Missing | NotFinite | Finite(ms: real)

  datatype CallResult = CallResult(
    scenario: string,
    outcome: Outcome,
    webhook: Latency,
    firstAudio: Latency,
    inboundFrameCount: int,
    outboundFrameCount: int,
    identityIsolated: bool,
    failureCode: Option<string>)

  function RealMax(a: real, b: real): (m: real)
    ensures m >= a && m >= b && (m == a || m == b)
  {
    if a >= b then a else b
  }

  function Max(a: int, b: int): (m: int)
    ensures m >= a && m >= b && (m == a || m == b)
  {
    if a >= b then a else b
  }

  /** The call with index `k` plays the scenarios in turn. */
  function ScenarioAt(stage: Stage, k: nat): string {
    if stage.scenarios == [] then "undefined" else stage.scenarios[k % |stage.scenarios|]
  }
}
