/** `percentiles` and `analyzeResults`. */
module Analysis {
  import opened Options
  import opened LoadTypes
  import Failures

  // ---------------------------------------------------------------- nearest-rank percentiles

  function Insert(x: real, sorted: seq<real>): (r: seq<real>)
    ensures |r| == |sorted| + 1
  {
    if sorted == [] then [x]
    else if x <= sorted[0] then [x] + sorted
    else [sorted[0]] + Insert(x, sorted[1..])
  }

  function Sort(values: seq<real>): (r: seq<real>)
    ensures |r| == |values|
  {
    if values == [] then [] else Insert(values[0], Sort(values[1..]))
  }

  ghost predicate Ascending(xs: seq<real>) {
    forall j, k :: 0 <= j <= k < |xs| ==> xs[j] <= xs[k]
  }

  function AtMost(xs: seq<real>, bound: real): nat {
    if xs == [] then 0 else (if xs[0] <= bound then 1 else 0) + AtMost(xs[1..], bound)
  }

  function Below(xs: seq<real>, bound: real): nat {
    if xs == [] then 0 else (if xs[0] < bound then 1 else 0) + Below(xs[1..], bound)
  }

  lemma {:induction false} InsertCounts(x: real, sorted: seq<real>, bound: real)
    ensures AtMost(Insert(x, sorted), bound) == AtMost(sorted, bound) + if x <= bound then 1 else 0
    ensures Below(Insert(x, sorted), bound) == Below(sorted, bound) + if x < bound then 1 else 0
  {
    if sorted == [] {
    } else if x <= sorted[0] {
      assert ([x] + sorted)[1..] == sorted;
    } else {
      InsertCounts(x, sorted[1..], bound);
      assert ([sorted[0]] + Insert(x, sorted[1..]))[1..] == Insert(x, sorted[1..]);
    }
  }

  lemma {:induction false} InsertContents(x: real, sorted: seq<real>)
    ensures multiset(Insert(x, sorted)) == multiset(sorted) + multiset{x}
  {
    if sorted != [] && x > sorted[0] {
      InsertContents(x, sorted[1..]);
      assert sorted == [sorted[0]] + sorted[1..];
    }
  }

  lemma {:induction false} InsertOrder(x: real, sorted: seq<real>)
    requires Ascending(sorted)
    ensures Ascending(Insert(x, sorted))
    ensures sorted != [] && x > sorted[0] ==> Insert(x, sorted)[0] == sorted[0]
    ensures sorted == [] || x <= sorted[0] ==> Insert(x, sorted)[0] == x
  {
    if sorted != [] && x > sorted[0] {
      var rest := Insert(x, sorted[1..]);
      InsertOrder(x, sorted[1..]);
      assert rest[0] >= sorted[0];
      assert forall k :: 0 <= k < |rest| ==> rest[0] <= rest[k];
    }
  }

  lemma {:induction false} SortContents(values: seq<real>)
    ensures Ascending(Sort(values)) && multiset(Sort(values)) == multiset(values)
  {
    if values != [] {
      SortContents(values[1..]);
      InsertOrder(values[0], Sort(values[1..]));
      InsertContents(values[0], Sort(values[1..]));
      hide Ascending, Insert;
      assert values == [values[0]] + values[1..];
    }
  }

  lemma {:induction false} SortCounts(values: seq<real>, bound: real)
    ensures AtMost(Sort(values), bound) == AtMost(values, bound) && Below(Sort(values), bound) == Below(values, bound)
  {
    if values != [] {
      SortCounts(values[1..], bound);
      InsertCounts(values[0], Sort(values[1..]), bound);
      hide Insert;
    }
  }

  lemma SortKeeps(values: seq<real>, bound: real)
    ensures Ascending(Sort(values)) && multiset(Sort(values)) == multiset(values)
    ensures AtMost(Sort(values), bound) == AtMost(values, bound) && Below(Sort(values), bound) == Below(values, bound)
  {
    SortContents(values);
    SortCounts(values, bound);
    hide Sort, Ascending;
  }

  function Ceil(x: real): int {
    -((-x).Floor)
  }

  function Rank(n: nat, quantile: real): int {
    Max(0, Ceil(n as real * quantile) - 1)
  }

  lemma RankBounds(n: nat, quantile: real)
    requires n > 0 && 0.0 < quantile <= 1.0
    ensures 0 <= Rank(n, quantile) < n
    ensures Rank(n, quantile) as real < n as real * quantile <= (Rank(n, quantile) + 1) as real
  {
  }

  /** `percentile` of a sorted list. */
  function Percentile(sorted: seq<real>, quantile: real): real
    requires sorted != [] && 0.0 < quantile <= 1.0
  {
    RankBounds(|sorted|, quantile);
    sorted[Rank(|sorted|, quantile)]
  }

  function PercentileOf(values: seq<real>, quantile: real): Option<real>
    requires 0.0 < quantile <= 1.0
  {
    if values == [] then None else Some(Percentile(Sort(values), quantile))
  }

  lemma {:induction false} CountsInOrder(xs: seq<real>, i: nat)
    requires Ascending(xs) && i < |xs|
    ensures AtMost(xs, xs[i]) >= i + 1 && Below(xs, xs[i]) <= i
  {
    if i == 0 {
      NoneBelow(xs, xs[0]);
    } else {
      CountsInOrder(xs[1..], i - 1);
    }
  }

  lemma {:induction false} NoneBelow(xs: seq<real>, bound: real)
    requires forall k :: 0 <= k < |xs| ==> bound <= xs[k]
    ensures Below(xs, bound) == 0
  {
    if xs != [] {
      NoneBelow(xs[1..], bound);
    }
  }

  /** The percentile is the nearest rank: a value of the list with at least that share of the list at or below it and
    less than that share strictly below it. */
  lemma PercentileIsNearestRank(values: seq<real>, quantile: real)
    requires values != [] && 0.0 < quantile <= 1.0
    ensures var p := PercentileOf(values, quantile).value;
      && p in values
      && AtMost(values, p) as real >= |values| as real * quantile
      && Below(values, p) as real < |values| as real * quantile
  {
    var sorted, i := Sort(values), Rank(|values|, quantile);
    RankBounds(|values|, quantile);
    assert PercentileOf(values, quantile) == Some(sorted[i]);
    hide PercentileOf, Rank, AtMost, Below;
    RankCounts(values, sorted, i);
    hide Sort;
    SharesOf(AtMost(values, sorted[i]), Below(values, sorted[i]), i, |values| as real * quantile);
  }

  lemma SharesOf(atMost: int, below: int, i: int, share: real)
    requires atMost >= i + 1 && below <= i && i as real < share <= (i + 1) as real
    ensures atMost as real >= share && below as real < share
  {
  }

  lemma RankCounts(values: seq<real>, sorted: seq<real>, i: nat)
    requires sorted == Sort(values) && i < |sorted|
    ensures sorted[i] in values && AtMost(values, sorted[i]) >= i + 1 && Below(values, sorted[i]) <= i
  {
    SortKeeps(values, sorted[i]);
    hide Sort, AtMost, Below;
    CountsInOrder(sorted, i);
    assert sorted[i] in multiset(sorted);
  }

  // ---------------------------------------------------------------- the analysis of a stage

  datatype Slo = Slo(minimumSuccessRate: real, maximumWebhookP95: real, maximumFirstAudioP95: real)

  datatype StageAnalysis = StageAnalysis(failures: seq<Failure>, meaningfulCalls: nat, successRate: real, passed: bool)

  function Passing(results: seq<CallResult>): seq<CallResult> {
    if results == [] then [] else (if results[0].outcome.Passed? then [results[0]] else []) + Passing(results[1..])
  }

  function Completed(results: seq<CallResult>): seq<CallResult> {
    if results == [] then [] else (if results[0].outcome.Aborted? then [] else [results[0]]) + Completed(results[1..])
  }

  predicate IsMeaningful(r: CallResult) {
    r.inboundFrameCount > 0 || r.outboundFrameCount > 0
  }

  function MeaningfulCalls(results: seq<CallResult>): nat {
    if results == [] then 0 else (if IsMeaningful(results[0]) then 1 else 0) + MeaningfulCalls(results[1..])
  }

  function IsolationFailures(results: seq<CallResult>): nat {
    if results == [] then 0 else (if results[0].identityIsolated then 0 else 1) + IsolationFailures(results[1..])
  }

  predicate RequiresFirstAudio(scenario: string) {
    scenario != "provider-quota-error" && scenario != "provider-closure"
  }

  function NeedingAudio(results: seq<CallResult>): seq<CallResult> {
    if results == [] then []
    else
      (if results[0].outcome.Passed? && RequiresFirstAudio(results[0].scenario) then [results[0]] else [])
      + NeedingAudio(results[1..])
  }

  predicate Exercised(results: seq<CallResult>, scenario: string) {
    exists k :: 0 <= k < |results| && results[k].scenario == scenario
  }

  /** The scenarios of the stage, repetitions counted, that no result carries. */
  function Unexercised(scenarios: seq<string>, results: seq<CallResult>): nat {
    if scenarios == [] then 0
    else (if Exercised(results, scenarios[0]) then 0 else 1) + Unexercised(scenarios[1..], results)
  }

  function WebhookTimes(results: seq<CallResult>): seq<real> {
    if results == [] then []
    else (if results[0].webhook.Finite? then [results[0].webhook.ms] else []) + WebhookTimes(results[1..])
  }

  function AudioTimes(results: seq<CallResult>): seq<real> {
    if results == [] then []
    else (if results[0].firstAudio.Finite? then [results[0].firstAudio.ms] else []) + AudioTimes(results[1..])
  }

  predicate EvidenceComplete(results: seq<CallResult>) {
    && (forall k :: 0 <= k < |Passing(results)| ==> Passing(results)[k].webhook.Finite?)
    && (forall k :: 0 <= k < |NeedingAudio(results)| ==> NeedingAudio(results)[k].firstAudio.Finite?)
  }

  predicate Within(p: Option<real>, maximum: real) {
    p.None? || p.value <= maximum
  }

  function SuccessRate(results: seq<CallResult>): real {
    if Completed(results) == [] then 0.0 else |Passing(results)| as real / |Completed(results)| as real
  }

  predicate SloPassed(results: seq<CallResult>, slo: Slo) {
    && SuccessRate(results) >= slo.minimumSuccessRate
    && EvidenceComplete(results)
    && Within(PercentileOf(WebhookTimes(Passing(results)), 0.95), slo.maximumWebhookP95)
    && Within(PercentileOf(AudioTimes(NeedingAudio(results)), 0.95), slo.maximumFirstAudioP95)
  }

  /** One failure per failed call, in order. */
  function CallFailures(stage: string, results: seq<CallResult>): seq<Failure> {
    if results == [] then []
    else
      var last := results[|results| - 1];
      CallFailures(stage, results[..|results| - 1])
      + if last.outcome.Failed? then [Failure(Failures.NormalizeFailureCode(last.failureCode), 1, Some(stage))] else []
  }

  method AddCallFailures(stage: string, results: seq<CallResult>, before: seq<Failure>) returns (failures: seq<Failure>)
    ensures failures == before + CallFailures(stage, results)
  {
    hide Failures.NormalizeFailureCode;
    failures := before;
    for k := 0 to |results|
      invariant failures == before + CallFailures(stage, results[..k])
    {
      assert results[..k + 1][..k] == results[..k];
      if results[k].outcome.Failed? {
        failures := failures + [Failure(Failures.NormalizeFailureCode(results[k].failureCode), 1, Some(stage))];
      }
    }
    assert results[..|results|] == results;
  }

  method AddIf(before: seq<Failure>, condition: bool, code: FailureCode, count: int, stage: string)
    returns (failures: seq<Failure>)
    ensures failures == before + OneIf(condition, code, count, stage)
  {
    failures := before;
    if condition {
      failures := failures + [Failure(code, count, Some(stage))];
    }
  }

  method AnalyzeResults(stage: Stage, results: seq<CallResult>, slo: Slo) returns (analysis: StageAnalysis)
    ensures analysis == Analyzed(stage, results, slo)
  {
    hide CallFailures, Unexercised, SloPassed, SuccessRate, EvidenceComplete, MeaningfulCalls, IsolationFailures, OneIf;
    var unexercised, meaningful := Unexercised(stage.scenarios, results), MeaningfulCalls(results);
    var isolation, passed := IsolationFailures(results), SloPassed(results, slo);
    var failures := AddIf([], unexercised > 0, ScenarioNotExercised, unexercised, stage.name);
    failures := AddIf(failures, results == [] || meaningful == 0, NoMeaningfulTraffic, Max(1, |results|), stage.name);
    failures := AddIf(failures, isolation > 0, IdentityIsolation, isolation, stage.name);
    failures := AddCallFailures(stage.name, results, failures);
    failures := AddIf(failures, !EvidenceComplete(results), LatencyEvidenceMissing, 1, stage.name);
    failures := AddIf(failures, !passed, SloBreach, 1, stage.name);
    analysis := StageAnalysis(failures, meaningful, SuccessRate(results), passed);
  }

  function OneIf(condition: bool, code: FailureCode, count: int, stage: string): seq<Failure> {
    if condition then [Failure(code, count, Some(stage))] else []
  }

  /** The analysis as a value: which checks fail, in which order. */
  function Analyzed(stage: Stage, results: seq<CallResult>, slo: Slo): StageAnalysis {
    var unexercised, meaningful := Unexercised(stage.scenarios, results), MeaningfulCalls(results);
    StageAnalysis(
      OneIf(unexercised > 0, ScenarioNotExercised, unexercised, stage.name)
      + OneIf(results == [] || meaningful == 0, NoMeaningfulTraffic, Max(1, |results|), stage.name)
      + OneIf(IsolationFailures(results) > 0, IdentityIsolation, IsolationFailures(results), stage.name)
      + CallFailures(stage.name, results)
      + OneIf(!EvidenceComplete(results), LatencyEvidenceMissing, 1, stage.name)
      + OneIf(!SloPassed(results, slo), SloBreach, 1, stage.name),
      meaningful, SuccessRate(results), SloPassed(results, slo))
  }

  // ---------------------------------------------------------------- what an empty failure list means

  lemma {:induction false} AllExercised(scenarios: seq<string>, results: seq<CallResult>)
    ensures Unexercised(scenarios, results) == 0
       <==> forall k :: 0 <= k < |scenarios| ==> Exercised(results, scenarios[k])
  {
    if scenarios != [] {
      AllExercised(scenarios[1..], results);
      assert forall k :: 0 < k < |scenarios| ==> scenarios[k] == scenarios[1..][k - 1];
      assert forall k :: 0 <= k < |scenarios| - 1 ==> scenarios[1..][k] == scenarios[k + 1];
    }
  }

  lemma {:induction false} NoCallFailures(stage: string, results: seq<CallResult>)
    ensures CallFailures(stage, results) == []
       <==> forall k :: 0 <= k < |results| ==> !results[k].outcome.Failed?
  {
    hide Failures.NormalizeFailureCode;
    if results != [] {
      NoCallFailures(stage, results[..|results| - 1]);
    }
  }

  lemma {:induction false} PassingAreCompleted(results: seq<CallResult>)
    requires forall k :: 0 <= k < |results| ==> !results[k].outcome.Failed?
    ensures Passing(results) == Completed(results)
  {
    if results != [] {
      PassingAreCompleted(results[1..]);
    }
  }

  lemma {:induction false} NoneAborted(results: seq<CallResult>)
    requires forall k :: 0 <= k < |results| ==> !results[k].outcome.Aborted?
    ensures Completed(results) == results
  {
    if results != [] {
      NoneAborted(results[1..]);
    }
  }

  lemma {:induction false} AllIsolated(results: seq<CallResult>)
    ensures IsolationFailures(results) == 0 <==> forall k :: 0 <= k < |results| ==> results[k].identityIsolated
  {
    if results != [] {
      AllIsolated(results[1..]);
      assert forall k :: 0 < k < |results| ==> results[k] == results[1..][k - 1];
      assert forall k :: 0 <= k < |results| - 1 ==> results[1..][k] == results[k + 1];
    }
  }

  /** An analysis reports nothing exactly when every scenario was exercised, some call had media, every call kept its
    identity, no call failed, and the objectives hold - and then no separate look at the objectives is needed. */
  lemma NothingToReport(stage: Stage, results: seq<CallResult>, slo: Slo)
    ensures Analyzed(stage, results, slo).failures == [] <==>
      && (forall k :: 0 <= k < |stage.scenarios| ==> Exercised(results, stage.scenarios[k]))
      && MeaningfulCalls(results) > 0
      && (forall k :: 0 <= k < |results| ==> results[k].identityIsolated)
      && (forall k :: 0 <= k < |results| ==> !results[k].outcome.Failed?)
      && SloPassed(results, slo)
    ensures Analyzed(stage, results, slo).failures == [] ==> Analyzed(stage, results, slo).passed
  {
    AllExercised(stage.scenarios, results);
    NoCallFailures(stage.name, results);
    AllIsolated(results);
    hide PercentileOf, Passing, NeedingAudio, WebhookTimes, AudioTimes, Exercised, CallFailures, SuccessRate;
  }

  lemma RateWhenAllPass(results: seq<CallResult>)
    requires Passing(results) == Completed(results)
    ensures SuccessRate(results) == if Completed(results) == [] then 0.0 else 1.0
  {
    hide Passing, Completed;
    if Completed(results) != [] {
      ShareOfItself(|Completed(results)|);
    }
  }

  lemma ShareOfItself(n: nat)
    requires n > 0
    ensures n as real / n as real == 1.0
  {
  }

  /** With nothing to report, every completed call passed: the success rate is one, or no call completed at all. */
  lemma CleanStageSucceeds(stage: Stage, results: seq<CallResult>, slo: Slo)
    requires Analyzed(stage, results, slo).failures == []
    ensures results != [] && Passing(results) == Completed(results)
    ensures SuccessRate(results) == if Completed(results) == [] then 0.0 else 1.0
    ensures slo.minimumSuccessRate > 0.0 ==> SuccessRate(results) == 1.0
  {
    NothingToReport(stage, results, slo);
    PassingAreCompleted(results);
    RateWhenAllPass(results);
    hide Analyzed, EvidenceComplete, PercentileOf, SuccessRate, Passing, Completed;
  }
}
