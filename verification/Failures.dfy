/** `aggregateFailures` and `addFailureOnce`: failure summaries are mutable objects shared between the stage's report and
  the run's, so aggregation must add up copies. */
module Failures {
  import opened Options
  import opened LoadTypes

  // ---------------------------------------------------------------- keys

  function CodeName(code: FailureCode): string {
    match code
    case TelemetryMissing => "telemetry_missing"
    case ResourceExhausted => "resource_exhausted"
    case NoMeaningfulTraffic => "no_meaningful_traffic"
    case IdentityIsolation => "identity_isolation"
    case SloBreach => "slo_breach"
    case CallFailure => "call_failure"
    case DrainNotRecovered => "drain_not_recovered"
    case ExporterFailureNotObserved => "exporter_failure_not_observed"
    case ScenarioNotExercised => "scenario_not_exercised"
    case LatencyEvidenceMissing => "latency_evidence_missing"
    case ScenarioContractFailed => "scenario_contract_failed"
    case ConcurrencyNotReached => "concurrency_not_reached"
    case TelemetryStale => "telemetry_stale"
    case TelemetryActivityMissing => "telemetry_activity_missing"
  }

  const KNOWN_CODES: seq<FailureCode> :=
    [TelemetryMissing, ResourceExhausted, NoMeaningfulTraffic, IdentityIsolation, SloBreach, CallFailure,
     DrainNotRecovered, ExporterFailureNotObserved, ScenarioNotExercised, LatencyEvidenceMissing,
     ScenarioContractFailed, ConcurrencyNotReached, TelemetryStale, TelemetryActivityMissing]

  function FindCode(codes: seq<FailureCode>, name: string): Option<FailureCode> {
    if codes == [] then None
    else if CodeName(codes[0]) == name then Some(codes[0])
    else FindCode(codes[1..], name)
  }

  /** `normalizeFailureCode`: anything unknown is a call failure. */
  function NormalizeFailureCode(code: Option<string>): FailureCode {
    if code.None? then CallFailure
    else
      var known := FindCode(KNOWN_CODES, code.value);
      if known.Some? then known.value else CallFailure
  }

  function StageName(stage: Option<string>): string {
    if stage.Some? then stage.value else ""
  }

  function KeyOf(f: Failure): string {
    StageName(f.stage) + ":" + CodeName(f.code)
  }

  predicate IsEarly(code: FailureCode) {
    || code.TelemetryMissing? || code.ResourceExhausted? || code.NoMeaningfulTraffic? || code.IdentityIsolation?
    || code.SloBreach? || code.CallFailure? || code.DrainNotRecovered?
  }

  lemma EarlyCodesHaveNoColon(code: FailureCode)
    requires IsEarly(code)
    ensures ':' !in CodeName(code)
  {
    match code
    case TelemetryMissing => assert ':' !in "telemetry_missing";
    case ResourceExhausted => assert ':' !in "resource_exhausted";
    case NoMeaningfulTraffic => assert ':' !in "no_meaningful_traffic";
    case IdentityIsolation => assert ':' !in "identity_isolation";
    case SloBreach => assert ':' !in "slo_breach";
    case CallFailure => assert ':' !in "call_failure";
    case DrainNotRecovered => assert ':' !in "drain_not_recovered";
    case _ =>
  }

  lemma CodeNamesHaveNoColon(code: FailureCode)
    ensures ':' !in CodeName(code)
  {
    match code
    case ExporterFailureNotObserved => assert ':' !in "exporter_failure_not_observed";
    case ScenarioNotExercised => assert ':' !in "scenario_not_exercised";
    case LatencyEvidenceMissing => assert ':' !in "latency_evidence_missing";
    case ScenarioContractFailed => assert ':' !in "scenario_contract_failed";
    case ConcurrencyNotReached => assert ':' !in "concurrency_not_reached";
    case TelemetryStale => assert ':' !in "telemetry_stale";
    case TelemetryActivityMissing => assert ':' !in "telemetry_activity_missing";
    case _ =>
      hide CodeName;
      EarlyCodesHaveNoColon(code);
  }

  lemma InTheTail(b: string, y: string, p: int)
    ensures |b| < p < |b + ":" + y| ==> (b + ":" + y)[p] in y
  {
  }

  /** The last colon of a text is where its colon-free tail begins. */
  lemma LastColonSplits(a: string, b: string, x: string, y: string)
    requires a + ":" + x == b + ":" + y && ':' !in x && ':' !in y
    ensures a == b && x == y
  {
    var text := a + ":" + x;
    assert text[|a|] == ':' && text[|b|] == ':' by { assert (b + ":" + y)[|b|] == ':'; }
    InTheTail(b, y, |a|);
    InTheTail(a, x, |b|);
    assert a == text[..|a|] && b == text[..|b|] && x == text[|a| + 1..] && y == text[|b| + 1..];
  }

  function Shape(code: FailureCode): (int, char) {
    match code
    case TelemetryMissing => (17, 't')
    case ResourceExhausted => (18, 'r')
    case NoMeaningfulTraffic => (21, 'n')
    case IdentityIsolation => (18, 'i')
    case SloBreach => (10, 's')
    case CallFailure => (12, 'c')
    case DrainNotRecovered => (19, 'd')
    case ExporterFailureNotObserved => (29, 'e')
    case ScenarioNotExercised => (22, 's')
    case LatencyEvidenceMissing => (24, 'l')
    case ScenarioContractFailed => (24, 's')
    case ConcurrencyNotReached => (23, 'c')
    case TelemetryStale => (15, 't')
    case TelemetryActivityMissing => (26, 't')
  }

  lemma CodeShape(code: FailureCode)
    ensures |CodeName(code)| == Shape(code).0 && CodeName(code)[0] == Shape(code).1
  {
  }

  lemma CodeNamesDiffer(a: FailureCode, b: FailureCode)
    requires CodeName(a) == CodeName(b)
    ensures a == b
  {
    CodeShape(a);
    CodeShape(b);
    hide CodeName;
  }

  lemma {:induction false} FindsCode(codes: seq<FailureCode>, code: FailureCode)
    requires code in codes
    ensures FindCode(codes, CodeName(code)) == Some(code)
  {
    hide CodeName;
    if CodeName(codes[0]) == CodeName(code) {
      CodeNamesDiffer(codes[0], code);
    } else {
      FindsCode(codes[1..], code);
    }
  }

  lemma {:induction false} FoundCodeIsNamed(codes: seq<FailureCode>, name: string)
    ensures FindCode(codes, name).Some? ==> CodeName(FindCode(codes, name).value) == name
  {
    hide CodeName;
    if codes != [] && CodeName(codes[0]) != name {
      FoundCodeIsNamed(codes[1..], name);
    }
  }

  /** Only its own name, or - for a call failure - an unknown one, is normalised to a code. */
  lemma NormalisedCodesAreNamed(name: Option<string>, code: FailureCode)
    requires NormalizeFailureCode(name) == code && !code.CallFailure?
    ensures name == Some(CodeName(code))
  {
    hide CodeName;
    if name.Some? {
      FoundCodeIsNamed(KNOWN_CODES, name.value);
    }
  }

  /** Every known code survives normalisation. */
  lemma KnownCodesAreKept(code: FailureCode)
    ensures NormalizeFailureCode(Some(CodeName(code))) == code
  {
    FindsCode(KNOWN_CODES, code);
    hide CodeName;
  }

  /** Two failures share a key exactly when they share the code and the stage; no stage and the empty name are one. */
  lemma KeysNameStageAndCode(a: Failure, b: Failure)
    ensures KeyOf(a) == KeyOf(b) <==> a.code == b.code && StageName(a.stage) == StageName(b.stage)
  {
    CodeNamesHaveNoColon(a.code);
    CodeNamesHaveNoColon(b.code);
    hide CodeName;
    if KeyOf(a) == KeyOf(b) {
      LastColonSplits(StageName(a.stage), StageName(b.stage), CodeName(a.code), CodeName(b.code));
      CodeNamesDiffer(a.code, b.code);
    }
  }

  // ---------------------------------------------------------------- aggregation on values

  function Keys(fs: seq<Failure>): (keys: seq<string>)
    ensures |keys| == |fs|
  {
    seq(|fs|, k requires 0 <= k < |fs| => KeyOf(fs[k]))
  }

  /** The first position of a key, or the length. */
  function Position(keys: seq<string>, key: string): (k: nat)
    ensures k <= |keys|
    ensures k < |keys| ==> keys[k] == key
    ensures forall j :: 0 <= j < k ==> keys[j] != key
  {
    if keys == [] then 0
    else if keys[0] == key then 0
    else 1 + Position(keys[1..], key)
  }

  function Merge(fs: seq<Failure>, f: Failure): seq<Failure> {
    var k := Position(Keys(fs), KeyOf(f));
    if k == |fs| then fs + [f] else fs[k := fs[k].(count := fs[k].count + f.count)]
  }

  function Into(fs: seq<Failure>, more: seq<Failure>): seq<Failure> {
    if more == [] then fs else Merge(Into(fs, more[..|more| - 1]), more[|more| - 1])
  }

  function Aggregate(fs: seq<Failure>): seq<Failure> {
    Into([], fs)
  }

  function Total(fs: seq<Failure>, key: string): int {
    if fs == [] then 0
    else Total(fs[..|fs| - 1], key) + if KeyOf(fs[|fs| - 1]) == key then fs[|fs| - 1].count else 0
  }

  ghost predicate DistinctKeys(fs: seq<Failure>) {
    forall j, k :: 0 <= j < k < |fs| ==> KeyOf(fs[j]) != KeyOf(fs[k])
  }

  lemma MergeKeepsDistinct(fs: seq<Failure>, f: Failure)
    requires DistinctKeys(fs)
    ensures DistinctKeys(Merge(fs, f))
  {
    hide KeyOf;
    var k := Position(Keys(fs), KeyOf(f));
    if k < |fs| {
      CountKeepsKey(fs[k], fs[k].count + f.count);
    }
    assert forall j :: 0 <= j < |fs| ==> KeyOf(Merge(fs, f)[j]) == Keys(fs)[j];
  }

  lemma CountKeepsKey(f: Failure, count: int)
    ensures KeyOf(f.(count := count)) == KeyOf(f)
  {
  }

  lemma {:induction false} TotalUpdates(fs: seq<Failure>, k: nat, f: Failure, key: string)
    requires k < |fs| && KeyOf(f) == KeyOf(fs[k])
    ensures Total(fs[k := f], key) == Total(fs, key) + if KeyOf(f) == key then f.count - fs[k].count else 0
  {
    hide KeyOf;
    var n := |fs| - 1;
    if k < n {
      TotalUpdates(fs[..n], k, f, key);
      assert fs[k := f][..n] == fs[..n][k := f];
    } else {
      assert fs[k := f][..n] == fs[..n];
    }
  }

  lemma MergeTotals(fs: seq<Failure>, f: Failure, key: string)
    ensures Total(Merge(fs, f), key) == Total(fs, key) + if KeyOf(f) == key then f.count else 0
  {
    hide KeyOf;
    var k := Position(Keys(fs), KeyOf(f));
    if k == |fs| {
      assert (fs + [f])[..|fs|] == fs;
    } else {
      CountKeepsKey(fs[k], fs[k].count + f.count);
      TotalUpdates(fs, k, fs[k].(count := fs[k].count + f.count), key);
    }
  }

  lemma {:induction false} IntoTotals(fs: seq<Failure>, more: seq<Failure>, key: string)
    requires DistinctKeys(fs)
    ensures Total(Into(fs, more), key) == Total(fs, key) + Total(more, key) && DistinctKeys(Into(fs, more))
  {
    if more != [] {
      IntoTotals(fs, more[..|more| - 1], key);
      MergeTotals(Into(fs, more[..|more| - 1]), more[|more| - 1], key);
      MergeKeepsDistinct(Into(fs, more[..|more| - 1]), more[|more| - 1]);
    }
  }

  lemma {:induction false} IntoAppends(fs: seq<Failure>, a: seq<Failure>, b: seq<Failure>)
    ensures Into(fs, a + b) == Into(Into(fs, a), b)
  {
    if b == [] {
      assert a + b == a;
    } else {
      assert (a + b)[..|a + b| - 1] == a + b[..|b| - 1];
      IntoAppends(fs, a, b[..|b| - 1]);
    }
  }

  /** Adding failures of new, distinct keys one after another just appends them. */
  lemma {:induction false} DistinctAppends(fs: seq<Failure>, more: seq<Failure>)
    requires DistinctKeys(fs + more)
    ensures Into(fs, more) == fs + more
  {
    if more == [] {
      assert fs + more == fs;
    } else {
      var init, last := more[..|more| - 1], more[|more| - 1];
      assert fs + more == (fs + init) + [last];
      assert DistinctKeys(fs + init) by {
        assert forall k :: 0 <= k < |fs + init| ==> (fs + init)[k] == (fs + more)[k];
      }
      DistinctAppends(fs, init);
      assert forall k :: 0 <= k < |fs + init| ==> (fs + more)[k] == (fs + init)[k];
      assert (fs + more)[|fs + more| - 1] == last;
      hide KeyOf;
    }
  }

  /** Aggregation keeps the total of every stage and code, and leaves each key once. */
  lemma AggregateConserves(fs: seq<Failure>, key: string)
    ensures Total(Aggregate(fs), key) == Total(fs, key) && DistinctKeys(Aggregate(fs))
  {
    IntoTotals([], fs, key);
  }

  /** What is aggregated stays as it is, and adding to an aggregate is adding to what it was made of: the stage's report
    and the run's report agree about the failures they share. */
  lemma AggregateIsIdempotent(fs: seq<Failure>, more: seq<Failure>)
    ensures Aggregate(Aggregate(fs)) == Aggregate(fs)
    ensures Aggregate(Aggregate(fs) + more) == Aggregate(fs + more)
  {
    AggregateConserves(fs, "");
    assert [] + Aggregate(fs) == Aggregate(fs);
    DistinctAppends([], Aggregate(fs));
    IntoAppends([], Aggregate(fs), more);
    IntoAppends([], fs, more);
  }

  /** The keys in the order they are first seen. */
  function FirstSeen(fs: seq<Failure>): seq<string> {
    if fs == [] then []
    else
      var seen := FirstSeen(fs[..|fs| - 1]);
      if KeyOf(fs[|fs| - 1]) in seen then seen else seen + [KeyOf(fs[|fs| - 1])]
  }

  /** An aggregate lists its keys in the order they were first seen. */
  lemma {:induction false} AggregateInFirstSeenOrder(fs: seq<Failure>)
    ensures Keys(Aggregate(fs)) == FirstSeen(fs)
  {
    if fs != [] {
      var init, last := fs[..|fs| - 1], fs[|fs| - 1];
      AggregateInFirstSeenOrder(init);
      var before, k := Aggregate(init), Position(Keys(Aggregate(init)), KeyOf(last));
      if k < |before| {
        assert Keys(before)[k] == KeyOf(last);
        CountKeepsKey(before[k], before[k].count + last.count);
      } else {
        assert forall j :: 0 <= j < |before| ==> Keys(before)[j] == KeyOf(before[j]);
      }
    }
  }

  lemma {:induction false} AggregateAddsNoCode(fs: seq<Failure>, code: FailureCode)
    requires forall k :: 0 <= k < |fs| ==> fs[k].code != code
    ensures forall k :: 0 <= k < |Aggregate(fs)| ==> Aggregate(fs)[k].code != code
  {
    if fs != [] {
      AggregateAddsNoCode(fs[..|fs| - 1], code);
      assert Aggregate(fs) == Merge(Aggregate(fs[..|fs| - 1]), fs[|fs| - 1]);
      hide KeyOf;
    }
  }

  // ---------------------------------------------------------------- the same on objects

  class FailureSummary {
    const code: FailureCode
    const stage: Option<string>
    var count: int

    constructor (f: Failure)
      ensures Value() == f
    {
      code, stage, count := f.code, f.stage, f.count;
    }

    function Value(): Failure
      reads this
    {
      Failure(code, count, stage)
    }
  }

  function Values(fs: seq<FailureSummary>): (values: seq<Failure>)
    reads fs
    ensures |values| == |fs|
  {
    seq(|fs|, k requires 0 <= k < |fs| reads fs => fs[k].Value())
  }

  ghost predicate AllDifferent(fs: seq<FailureSummary>) {
    forall j, k :: 0 <= j < k < |fs| ==> fs[j] != fs[k]
  }

  /** The first failure of a key is copied; the count of a later one is added to that copy. */
  method MergeFailure(aggregate: seq<FailureSummary>, failure: FailureSummary) returns (after: seq<FailureSummary>)
    requires AllDifferent(aggregate) && failure !in aggregate
    modifies aggregate
    ensures Values(after) == Merge(old(Values(aggregate)), failure.Value()) && failure.Value() == old(failure.Value())
    ensures AllDifferent(after) && |after| >= |aggregate|
    ensures forall k :: 0 <= k < |after| ==> if k < |aggregate| then after[k] == aggregate[k] else fresh(after[k])
  {
    hide KeyOf;
    var k := FindKey(aggregate, KeyOf(failure.Value()));
    if k == |aggregate| {
      var copy := new FailureSummary(failure.Value());
      after := aggregate + [copy];
      assert Values(after) == Values(aggregate) + [failure.Value()];
    } else {
      ghost var before := Values(aggregate);
      aggregate[k].count := aggregate[k].count + failure.count;
      after := aggregate;
      assert Values(after) == before[k := before[k].(count := before[k].count + failure.Value().count)];
    }
  }

  /** Counts are added up on copies, so no input object changes. */
  method AggregateFailures(failures: seq<FailureSummary>) returns (aggregate: seq<FailureSummary>)
    ensures forall k :: 0 <= k < |aggregate| ==> fresh(aggregate[k])
    ensures forall f :: f in failures ==> f.Value() == old(f.Value())
    ensures Values(aggregate) == Aggregate(old(Values(failures)))
  {
    hide KeyOf, Merge;
    aggregate := [];
    ghost var inputs := Values(failures);
    for i := 0 to |failures|
      invariant forall k :: 0 <= k < |aggregate| ==> fresh(aggregate[k])
      invariant AllDifferent(aggregate)
      invariant forall f :: f in failures ==> f.Value() == old(f.Value())
      invariant Values(aggregate) == Aggregate(inputs[..i])
    {
      assert inputs[..i + 1][..i] == inputs[..i] && inputs[..i + 1][i] == failures[i].Value();
      aggregate := MergeFailure(aggregate, failures[i]);
    }
    assert inputs[..|failures|] == inputs;
  }

  method FindKey(failures: seq<FailureSummary>, key: string) returns (k: nat)
    ensures k == Position(Keys(Values(failures)), key)
  {
    hide KeyOf;
    k := 0;
    while k < |failures| && KeyOf(failures[k].Value()) != key
      invariant k <= |failures|
      invariant forall j :: 0 <= j < k ==> Keys(Values(failures))[j] != key
    {
      k := k + 1;
    }
    assert k < |failures| ==> Keys(Values(failures))[k] == key;
  }
}
