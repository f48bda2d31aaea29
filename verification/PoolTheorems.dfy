/** What the worker pool keeps in every interleaving of its workers and its monitor: every index is handed out once and
  ends in one place, the active-call count is exact, nothing starts after an abort, the pool is paced, and a stage with
  a call count records exactly that many results and ends. */
module PoolTheorems {
  import opened Options
  import opened LoadTypes
  import opened PoolModel

  // ---------------------------------------------------------------- indices

  predicate IsHolder(worker: Worker) {
    worker.Sleeping? || worker.Calling?
  }

  function HolderCount(workers: seq<Worker>): nat {
    if workers == [] then 0
    else HolderCount(workers[..|workers| - 1]) + if IsHolder(workers[|workers| - 1]) then 1 else 0
  }

  function CallingCount(workers: seq<Worker>): (n: nat)
    ensures n <= |workers|
  {
    if workers == [] then 0
    else CallingCount(workers[..|workers| - 1]) + if workers[|workers| - 1].Calling? then 1 else 0
  }

  lemma {:induction false} WorkerChanges(workers: seq<Worker>, w: nat, worker: Worker)
    requires w < |workers|
    ensures HolderCount(workers[w := worker])
         == HolderCount(workers) - (if IsHolder(workers[w]) then 1 else 0) + if IsHolder(worker) then 1 else 0
    ensures CallingCount(workers[w := worker])
         == CallingCount(workers) - (if workers[w].Calling? then 1 else 0) + if worker.Calling? then 1 else 0
  {
    var n := |workers| - 1;
    if w < n {
      WorkerChanges(workers[..n], w, worker);
      assert workers[w := worker][..n] == workers[..n][w := worker];
    } else {
      assert workers[w := worker][..n] == workers[..n];
    }
  }

  lemma {:induction false} NobodyHolds(workers: seq<Worker>)
    requires forall w :: 0 <= w < |workers| ==> !IsHolder(workers[w])
    ensures HolderCount(workers) == 0 && CallingCount(workers) == 0
  {
    if workers != [] {
      NobodyHolds(workers[..|workers| - 1]);
    }
  }

  /** Every index handed out is with one worker, in one result, or dropped - and nowhere else. */
  ghost predicate Partition(next: nat, workers: seq<Worker>, recorded: seq<nat>, dropped: set<nat>) {
    && (forall w :: 0 <= w < |workers| && IsHolder(workers[w]) ==>
          workers[w].index < next && workers[w].index !in recorded && workers[w].index !in dropped)
    && (forall v, w :: 0 <= v < w < |workers| && IsHolder(workers[v]) && IsHolder(workers[w]) ==>
          workers[v].index != workers[w].index)
    && (forall k :: 0 <= k < |recorded| ==> recorded[k] < next && recorded[k] !in dropped)
    && (forall j, k :: 0 <= j < k < |recorded| ==> recorded[j] != recorded[k])
    && (forall i :: i in dropped ==> i < next)
    && HolderCount(workers) + |recorded| + |dropped| == next
  }

  lemma PartitionTakes(next: nat, workers: seq<Worker>, recorded: seq<nat>, dropped: set<nat>, w: nat, due: real)
    requires Partition(next, workers, recorded, dropped) && w < |workers| && !IsHolder(workers[w])
    ensures Partition(next + 1, workers[w := Sleeping(next, due)], recorded, dropped)
  {
    WorkerChanges(workers, w, Sleeping(next, due));
  }

  lemma PartitionKeeps(next: nat, workers: seq<Worker>, recorded: seq<nat>, dropped: set<nat>, w: nat, worker: Worker)
    requires Partition(next, workers, recorded, dropped) && w < |workers| && IsHolder(worker) == IsHolder(workers[w])
    requires IsHolder(worker) ==> worker.index == workers[w].index
    ensures Partition(next, workers[w := worker], recorded, dropped)
  {
    WorkerChanges(workers, w, worker);
  }

  lemma PartitionDrops(next: nat, workers: seq<Worker>, recorded: seq<nat>, dropped: set<nat>, w: nat)
    requires Partition(next, workers, recorded, dropped) && w < |workers| && IsHolder(workers[w])
    ensures Partition(next, workers[w := Done], recorded, dropped + {workers[w].index})
  {
    WorkerChanges(workers, w, Done);
  }

  lemma PartitionRecords(next: nat, workers: seq<Worker>, recorded: seq<nat>, dropped: set<nat>, w: nat, worker: Worker)
    requires Partition(next, workers, recorded, dropped) && w < |workers| && IsHolder(workers[w]) && !IsHolder(worker)
    ensures Partition(next, workers[w := worker], recorded + [workers[w].index], dropped)
  {
    WorkerChanges(workers, w, worker);
  }

  // ---------------------------------------------------------------- the invariant

  /** The flags go together, and whoever stops the stage leaves a failure. */
  ghost predicate Flags(s: State) {
    s.aborted == s.stopProfile && (s.aborted ==> s.failures != [])
  }

  ghost predicate Counted(stage: Stage, s: State) {
    && |s.workers| == stage.concurrency && s.activeCalls == CallingCount(s.workers)
    && s.activeCalls <= s.peak <= stage.concurrency
    && (stage.callCount.Some? ==> s.nextCallIndex == 0 || s.nextCallIndex <= stage.callCount.value)
  }

  /** Why a worker may have returned, and why an index may have been dropped. */
  ghost predicate Excused(stage: Stage, startedAt: real, s: State) {
    && ((exists w :: 0 <= w < |s.workers| && s.workers[w].Done?) ==>
          s.aborted || PastDeadline(stage, startedAt, s.now)
          || (stage.callCount.Some? && s.nextCallIndex >= stage.callCount.value))
    && (s.dropped != {} ==> s.aborted || PastDeadline(stage, startedAt, s.now))
  }

  function SlotOf(stage: Stage, startedAt: real, i: nat): real {
    startedAt + i as real * Interval(stage)
  }

  /** Launch slots are one interval apart, and nobody sleeps for less than to its own slot. */
  ghost predicate Paced(stage: Stage, startedAt: real, s: State) {
    && s.nextLaunchAt == SlotOf(stage, startedAt, s.nextCallIndex) && s.now >= startedAt
    && (forall w :: 0 <= w < |s.workers| && s.workers[w].Sleeping? ==>
          s.workers[w].due >= SlotOf(stage, startedAt, s.workers[w].index))
    && (forall k :: 0 <= k < |s.starts| ==>
          s.starts[k].index < s.nextCallIndex && SlotOf(stage, startedAt, s.starts[k].index) <= s.starts[k].at <= s.now)
  }

  /** An index starts at most once: what has started is not asleep. */
  ghost predicate StartedOnce(s: State) {
    && (forall j, k :: 0 <= j < k < |s.starts| ==> s.starts[j].index != s.starts[k].index)
    && (forall k, w :: 0 <= k < |s.starts| && 0 <= w < |s.workers| && s.workers[w].Sleeping? ==>
          s.starts[k].index != s.workers[w].index)
    && (forall k :: 0 <= k < |s.starts| ==> s.starts[k].index < s.nextCallIndex)
  }

  ghost predicate Labelled(stage: Stage, s: State) {
    && |s.results| == |s.recorded|
    && (s.honest ==> forall k :: 0 <= k < |s.results| ==>
          s.results[k].scenario == ScenarioAt(stage, s.recorded[k]) && (s.results[k].outcome.Aborted? ==> s.aborted))
  }

  ghost predicate Inv(stage: Stage, startedAt: real, s: State) {
    && Partition(s.nextCallIndex, s.workers, s.recorded, s.dropped)
    && Flags(s) && Counted(stage, s) && Excused(stage, startedAt, s) && Paced(stage, startedAt, s)
    && StartedOnce(s) && Labelled(stage, s)
  }

  /** Reading telemetry touches the flags, the failures and the peaks of the telemetry, and nothing else. */
  lemma ObserveShape(stage: Stage, s: State, reading: Option<Sample>)
    requires Flags(s)
    ensures var r := Observe(stage, s, reading);
      && r == s.(aborted := r.aborted, stopProfile := r.stopProfile, failures := r.failures,
                 maximumExporterFailures := r.maximumExporterFailures, latestTelemetryAt := r.latestTelemetryAt,
                 peakTelemetryCalls := r.peakTelemetryCalls, peakTelemetrySockets := r.peakTelemetrySockets)
      && Flags(r) && (s.aborted ==> r.aborted)
  {
  }

  lemma ObserveKeeps(stage: Stage, startedAt: real, s: State, reading: Option<Sample>)
    requires Inv(stage, startedAt, s)
    ensures Inv(stage, startedAt, Observe(stage, s, reading))
  {
    ObserveShape(stage, s, reading);
    hide Partition, Observe, SlotOf;
  }

  lemma WorkerMoves(stage: Stage, startedAt: real, s: State, w: nat, worker: Worker)
    requires Inv(stage, startedAt, s) && w < |s.workers| && !IsHolder(s.workers[w]) && !IsHolder(worker)
    requires worker.Done? ==> !MayTake(stage, startedAt, s)
    ensures Inv(stage, startedAt, s.(workers := s.workers[w := worker]))
  {
    PartitionKeeps(s.nextCallIndex, s.workers, s.recorded, s.dropped, w, worker);
    WorkerChanges(s.workers, w, worker);
    hide Partition, SlotOf, PastDeadline;
  }

  lemma SlotAdvances(stage: Stage, startedAt: real, i: nat)
    ensures SlotOf(stage, startedAt, i + 1) == SlotOf(stage, startedAt, i) + Interval(stage)
  {
  }

  lemma TakePaced(stage: Stage, startedAt: real, s: State, w: nat)
    requires Paced(stage, startedAt, s) && w < |s.workers| && MayTake(stage, startedAt, s)
    ensures Paced(stage, startedAt, Take(stage, startedAt, s, w))
  {
    SlotAdvances(stage, startedAt, s.nextCallIndex);
    hide SlotOf, Interval, PastDeadline;
  }

  lemma TakeKeeps(stage: Stage, startedAt: real, s: State, w: nat)
    requires Inv(stage, startedAt, s) && w < |s.workers| && s.workers[w].AtHead?
    ensures Inv(stage, startedAt, Take(stage, startedAt, s, w))
  {
    if MayTake(stage, startedAt, s) {
      var r := Take(stage, startedAt, s, w);
      TakePaced(stage, startedAt, s, w);
      PartitionTakes(s.nextCallIndex, s.workers, s.recorded, s.dropped, w, r.workers[w].due);
      WorkerChanges(s.workers, w, r.workers[w]);
      hide Partition, PastDeadline, Interval, Paced;
      assert StartedOnce(r) by { hide Counted, Excused, Labelled, Flags; }
    } else {
      WorkerMoves(stage, startedAt, s, w, Done);
    }
  }

  lemma LaunchStarts(s: State, r: State, w: nat, start: Start)
    requires StartedOnce(s) && w < |s.workers| && s.workers[w].Sleeping? && start.index == s.workers[w].index
    requires start.index < s.nextCallIndex == r.nextCallIndex && r.starts == s.starts + [start]
    requires forall v :: 0 <= v < |s.workers| && v != w && s.workers[v].Sleeping? ==> s.workers[v].index != start.index
    requires r.workers == s.workers[w := Calling(start.index)]
    ensures StartedOnce(r)
  {
  }

  lemma LaunchPaced(stage: Stage, startedAt: real, s: State, w: nat)
    requires Paced(stage, startedAt, s) && w < |s.workers| && s.workers[w].Sleeping? && s.now >= s.workers[w].due
    requires s.workers[w].index < s.nextCallIndex
    ensures Paced(stage, startedAt, OnLaunch(stage, startedAt, s, w))
  {
    hide SlotOf, PastDeadline;
  }

  lemma LaunchExcused(stage: Stage, startedAt: real, s: State, w: nat)
    requires Excused(stage, startedAt, s) && w < |s.workers| && s.workers[w].Sleeping?
    ensures Excused(stage, startedAt, OnLaunch(stage, startedAt, s, w))
  {
    hide PastDeadline;
  }

  lemma LaunchDrops(stage: Stage, startedAt: real, s: State, w: nat)
    requires Inv(stage, startedAt, s) && w < |s.workers| && s.workers[w].Sleeping? && s.now >= s.workers[w].due
    requires s.aborted || PastDeadline(stage, startedAt, s.now)
    ensures Inv(stage, startedAt, OnLaunch(stage, startedAt, s, w))
  {
    assert s.workers[w].index < s.nextCallIndex;
    WorkerChanges(s.workers, w, Done);
    LaunchPaced(stage, startedAt, s, w);
    LaunchExcused(stage, startedAt, s, w);
    PartitionDrops(s.nextCallIndex, s.workers, s.recorded, s.dropped, w);
    hide Partition, SlotOf, Paced, Excused, PastDeadline;
  }

  lemma LaunchCalls(stage: Stage, startedAt: real, s: State, w: nat)
    requires Inv(stage, startedAt, s) && w < |s.workers| && s.workers[w].Sleeping? && s.now >= s.workers[w].due
    requires !s.aborted && !PastDeadline(stage, startedAt, s.now)
    ensures Inv(stage, startedAt, OnLaunch(stage, startedAt, s, w))
  {
    var r, index := OnLaunch(stage, startedAt, s, w), s.workers[w].index;
    assert index < s.nextCallIndex;
    assert forall v :: 0 <= v < |s.workers| && v != w && s.workers[v].Sleeping? ==> s.workers[v].index != index;
    WorkerChanges(s.workers, w, Calling(index));
    LaunchPaced(stage, startedAt, s, w);
    LaunchExcused(stage, startedAt, s, w);
    PartitionKeeps(s.nextCallIndex, s.workers, s.recorded, s.dropped, w, Calling(index));
    hide Partition, SlotOf, Paced, Excused, PastDeadline;
    LaunchStarts(s, r, w, Start(index, s.now));
    hide StartedOnce;
  }

  lemma LaunchKeeps(stage: Stage, startedAt: real, s: State, w: nat)
    requires Inv(stage, startedAt, s) && w < |s.workers| && s.workers[w].Sleeping? && s.now >= s.workers[w].due
    ensures Inv(stage, startedAt, OnLaunch(stage, startedAt, s, w))
  {
    hide Inv, OnLaunch, PastDeadline;
    if s.aborted || PastDeadline(stage, startedAt, s.now) {
      LaunchDrops(stage, startedAt, s, w);
    } else {
      LaunchCalls(stage, startedAt, s, w);
    }
  }

  lemma CallEndsKeeps(stage: Stage, startedAt: real, s: State, w: nat, completion: Completion)
    requires Inv(stage, startedAt, s) && w < |s.workers| && s.workers[w].Calling?
    ensures Inv(stage, startedAt, OnCallEnds(stage, s, w, completion))
  {
    var r := OnCallEnds(stage, s, w, completion);
    WorkerChanges(s.workers, w, r.workers[w]);
    PartitionRecords(s.nextCallIndex, s.workers, s.recorded, s.dropped, w, r.workers[w]);
    hide Partition, PastDeadline, SlotOf, ResultOf, ScenarioAt;
  }

  lemma StepKeeps(stage: Stage, startedAt: real, s: State, e: Event)
    requires Inv(stage, startedAt, s) && Enabled(s, e)
    ensures Inv(stage, startedAt, Step(stage, startedAt, s, e))
  {
    hide Inv, Take, OnLaunch, OnCallEnds, Observe;
    match e
    case TakeCall(w) => TakeKeeps(stage, startedAt, s, w);
    case Launch(w) => LaunchKeeps(stage, startedAt, s, w);
    case CallEnds(w, completion) => CallEndsKeeps(stage, startedAt, s, w, completion);
    case WorkerObserves(w, reading) =>
      ObserveKeeps(stage, startedAt, s, reading);
      ObserveWorkers(stage, s, reading);
      WorkerMoves(stage, startedAt, Observe(stage, s, reading), w, AtHead);
    case MonitorObserves(reading) =>
      ObserveKeeps(stage, startedAt, s, reading);
      MonitorKeeps(stage, startedAt, Observe(stage, s, reading), Step(stage, startedAt, s, e));
    case _ => MonitorKeeps(stage, startedAt, s, Step(stage, startedAt, s, e));
  }

  lemma ObserveWorkers(stage: Stage, s: State, reading: Option<Sample>)
    ensures Observe(stage, s, reading).workers == s.workers
    ensures Observe(stage, s, reading).nextCallIndex == s.nextCallIndex && Observe(stage, s, reading).now == s.now
    ensures Observe(stage, s, reading).monitorStopped == s.monitorStopped
  {
  }

  /** The monitor's own place, its stop flag and the passing of time are nobody else's business. */
  lemma MonitorKeeps(stage: Stage, startedAt: real, s: State, r: State)
    requires Inv(stage, startedAt, s) && r.now >= s.now
    requires r == s.(monitor := r.monitor, monitorStopped := r.monitorStopped, now := r.now)
    ensures Inv(stage, startedAt, r)
  {
    hide Partition, SlotOf;
  }

  lemma InitialKeeps(stage: Stage, baseline: Sample, startedAt: real)
    ensures Inv(stage, startedAt, Initial(stage, baseline, startedAt))
  {
    NobodyHolds(Initial(stage, baseline, startedAt).workers);
  }

  lemma {:induction false} RunKeeps(stage: Stage, baseline: Sample, startedAt: real, events: seq<Event>)
    requires Run(stage, baseline, startedAt, events).Some?
    ensures Inv(stage, startedAt, Run(stage, baseline, startedAt, events).value)
  {
    if events == [] {
      InitialKeeps(stage, baseline, startedAt);
    } else {
      RunKeeps(stage, baseline, startedAt, events[..|events| - 1]);
      hide Inv;
      StepKeeps(stage, startedAt, Run(stage, baseline, startedAt, events[..|events| - 1]).value, events[|events| - 1]);
    }
  }

  // ---------------------------------------------------------------- pigeonholes

  /** Distinct naturals below `n`, `n` of them, are all of them. */
  lemma {:induction false} DistinctBelow(xs: seq<nat>, n: nat)
    requires forall k :: 0 <= k < |xs| ==> xs[k] < n
    requires forall j, k :: 0 <= j < k < |xs| ==> xs[j] != xs[k]
    ensures |xs| <= n
    ensures |xs| == n ==> forall i: nat :: i < n ==> i in xs
  {
    if xs == [] {
    } else if n == 0 {
      assert false;
    } else if n - 1 in xs {
      var p :| 0 <= p < |xs| && xs[p] == n - 1;
      var rest := xs[..p] + xs[p + 1..];
      assert forall k :: 0 <= k < |rest| ==> rest[k] == xs[if k < p then k else k + 1];
      DistinctBelow(rest, n - 1);
      forall i: nat | |xs| == n && i < n ensures i in xs {
        if i < n - 1 {
          assert i in rest;
        }
      }
    } else {
      DistinctBelow(xs, n - 1);
    }
  }

  // ---------------------------------------------------------------- theorems

  /** In every interleaving: the active-call count is the number of calls in flight, never more than there are workers,
    and every index below the counter - and no other - is with exactly one worker, in exactly one result, or dropped. */
  lemma IndicesAreHandedOutOnce(stage: Stage, baseline: Sample, startedAt: real, events: seq<Event>)
    requires Run(stage, baseline, startedAt, events).Some?
    ensures var s := Run(stage, baseline, startedAt, events).value;
      && s.activeCalls == CallingCount(s.workers) <= s.peak <= stage.concurrency
      && Partition(s.nextCallIndex, s.workers, s.recorded, s.dropped)
      && |s.results| == |s.recorded|
      && (forall j, k :: 0 <= j < k < |s.starts| ==> s.starts[j].index != s.starts[k].index)
  {
    RunKeeps(stage, baseline, startedAt, events);
  }

  lemma AbortedStep(stage: Stage, startedAt: real, s: State, e: Event)
    requires s.aborted && Enabled(s, e)
    ensures var r := Step(stage, startedAt, s, e);
      r.aborted && r.starts == s.starts && r.nextCallIndex == s.nextCallIndex
  {
    hide HasFailure, ResultOf, Honours, ScenarioAt, Interval, PastDeadline;
  }

  lemma RunUnfolds(stage: Stage, baseline: Sample, startedAt: real, events: seq<Event>, more: seq<Event>)
    requires more != [] && Run(stage, baseline, startedAt, events + more).Some?
    ensures var before := Run(stage, baseline, startedAt, events + more[..|more| - 1]); var last := more[|more| - 1];
      && before.Some? && Enabled(before.value, last)
      && Run(stage, baseline, startedAt, events + more) == Some(Step(stage, startedAt, before.value, last))
  {
    assert (events + more)[..|events + more| - 1] == events + more[..|more| - 1];
    hide Enabled, Step;
  }

  /** Once a stage is aborted, no call starts and no index is handed out in any continuation, and it stays aborted. */
  lemma {:induction false} NothingStartsAfterAbort(stage: Stage, baseline: Sample, startedAt: real,
                                                   events: seq<Event>, more: seq<Event>)
    requires Run(stage, baseline, startedAt, events).Some? && Run(stage, baseline, startedAt, events).value.aborted
    requires Run(stage, baseline, startedAt, events + more).Some?
    ensures var s := Run(stage, baseline, startedAt, events).value;
      var r := Run(stage, baseline, startedAt, events + more).value;
      r.aborted && r.starts == s.starts && r.nextCallIndex == s.nextCallIndex
  {
    if more == [] {
      assert events + more == events;
    } else {
      var init := more[..|more| - 1];
      RunUnfolds(stage, baseline, startedAt, events, more);
      hide Run, Step;
      NothingStartsAfterAbort(stage, baseline, startedAt, events, init);
      AbortedStep(stage, startedAt, Run(stage, baseline, startedAt, events + init).value, more[|more| - 1]);
    }
  }

  /** A stage that stops the profile says why. */
  lemma StoppingLeavesFailure(stage: Stage, baseline: Sample, startedAt: real, events: seq<Event>)
    requires Run(stage, baseline, startedAt, events).Some?
    ensures var s := Run(stage, baseline, startedAt, events).value;
      s.stopProfile == s.aborted && (s.stopProfile ==> s.failures != [])
  {
    RunKeeps(stage, baseline, startedAt, events);
  }

  /** With a call count, at least one worker, and neither abort nor deadline, a pool whose workers have all returned has
    recorded exactly that many results: one for each index. */
  lemma CallCountIsExact(stage: Stage, baseline: Sample, startedAt: real, events: seq<Event>)
    requires Run(stage, baseline, startedAt, events).Some? && AllDone(Run(stage, baseline, startedAt, events).value)
    requires stage.concurrency > 0 && stage.callCount.Some? && stage.durationMs.None?
    requires !Run(stage, baseline, startedAt, events).value.aborted
    ensures var s := Run(stage, baseline, startedAt, events).value; var n := Max(0, stage.callCount.value);
      && |s.results| == n && s.nextCallIndex == n && s.dropped == {}
      && (forall i: nat :: i < n <==> i in s.recorded)
  {
    RunKeeps(stage, baseline, startedAt, events);
    var s := Run(stage, baseline, startedAt, events).value;
    assert s.workers[0].Done?;
    NobodyHolds(s.workers);
    DistinctBelow(s.recorded, s.nextCallIndex);
  }

  /** No call starts before its launch slot. */
  lemma CallsWaitForTheirSlot(stage: Stage, baseline: Sample, startedAt: real, events: seq<Event>, k: nat)
    requires Run(stage, baseline, startedAt, events).Some?
    requires k < |Run(stage, baseline, startedAt, events).value.starts|
    ensures var start := Run(stage, baseline, startedAt, events).value.starts[k];
      start.at >= SlotOf(stage, startedAt, start.index)
  {
    RunKeeps(stage, baseline, startedAt, events);
    hide Run, SlotOf, Partition;
  }

  /** Whatever the concurrency, at most one call more than there are whole intervals since the start has started. */
  lemma PacingBound(stage: Stage, baseline: Sample, startedAt: real, events: seq<Event>)
    requires Run(stage, baseline, startedAt, events).Some?
    ensures var s := Run(stage, baseline, startedAt, events).value;
      |s.starts| <= ((s.now - startedAt) / Interval(stage)).Floor + 1
  {
    RunKeeps(stage, baseline, startedAt, events);
    var s := Run(stage, baseline, startedAt, events).value;
    hide Run, Interval, Partition, Counted, Excused, Labelled, Flags;
    PacedStarts(stage, startedAt, s);
  }

  lemma PacedStarts(stage: Stage, startedAt: real, s: State)
    requires Paced(stage, startedAt, s) && StartedOnce(s) && s.now >= startedAt
    ensures |s.starts| <= ((s.now - startedAt) / Interval(stage)).Floor + 1
  {
    var interval := Interval(stage);
    var slots := ((s.now - startedAt) / interval).Floor;
    QuotientBounds(0, interval, s.now - startedAt);
    var indices: seq<nat> := seq(|s.starts|, k requires 0 <= k < |s.starts| => s.starts[k].index);
    forall k | 0 <= k < |indices| ensures indices[k] < slots + 1 {
      assert indices[k] == s.starts[k].index;
      QuotientBounds(indices[k], interval, s.now - startedAt);
    }
    hide Paced, StartedOnce, Interval;
    DistinctBelow(indices, slots + 1);
  }

  lemma QuotientBounds(i: nat, interval: real, elapsed: real)
    requires interval > 0.0 && i as real * interval <= elapsed
    ensures i <= (elapsed / interval).Floor
  {
    assert elapsed / interval - i as real == (elapsed - i as real * interval) / interval >= 0.0;
  }

  // ---------------------------------------------------------------- the pool ends

  /** How many steps a worker needs to be back at the head of its loop, and one more to leave. */
  function WorkerWork(worker: Worker): nat {
    match worker
    case AtHead => 1
    case Sleeping(_, _) => 4
    case Calling(_) => 3
    case Observing => 2
    case Done => 0
  }

  function WorkersWork(workers: seq<Worker>): nat {
    if workers == [] then 0
    else WorkersWork(workers[..|workers| - 1]) + WorkerWork(workers[|workers| - 1])
  }

  lemma {:induction false} WorkChanges(workers: seq<Worker>, w: nat, worker: Worker)
    requires w < |workers|
    ensures WorkersWork(workers[w := worker]) == WorkersWork(workers) - WorkerWork(workers[w]) + WorkerWork(worker)
  {
    var n := |workers| - 1;
    if w < n {
      WorkChanges(workers[..n], w, worker);
      assert workers[w := worker][..n] == workers[..n][w := worker];
    } else {
      assert workers[w := worker][..n] == workers[..n];
    }
  }

  /** The steps the workers of a stage with a call count may still make. */
  function PoolWork(stage: Stage, s: State): int
    requires stage.callCount.Some?
  {
    4 * Max(0, stage.callCount.value - s.nextCallIndex) + WorkersWork(s.workers)
  }

  predicate WorkerEvent(e: Event) {
    e.TakeCall? || e.Launch? || e.CallEnds? || e.WorkerObserves?
  }

  lemma TakeWorks(stage: Stage, startedAt: real, s: State, w: nat)
    requires stage.callCount.Some? && w < |s.workers| && s.workers[w].AtHead?
    ensures 0 <= PoolWork(stage, Take(stage, startedAt, s, w)) < PoolWork(stage, s)
  {
    WorkChanges(s.workers, w, Take(stage, startedAt, s, w).workers[w]);
    hide WorkersWork, Interval, PastDeadline;
  }

  /** Every step of a worker uses up work of a pool with a call count, and no other step makes any: the workers make
    only finitely many steps, whatever the monitor does, and while one has not returned it has one to make. */
  lemma WorkerStepsEnd(stage: Stage, startedAt: real, s: State, e: Event)
    requires stage.callCount.Some? && Enabled(s, e)
    ensures var r := Step(stage, startedAt, s, e);
      && (WorkerEvent(e) ==> 0 <= PoolWork(stage, r) < PoolWork(stage, s))
      && (!WorkerEvent(e) ==> PoolWork(stage, r) == PoolWork(stage, s))
  {
    hide WorkersWork, Interval, MayTake, PastDeadline, ResultOf, ScenarioAt, Observe;
    match e
    case TakeCall(w) => TakeWorks(stage, startedAt, s, w);
    case Launch(w) => WorkChanges(s.workers, w, OnLaunch(stage, startedAt, s, w).workers[w]);
    case CallEnds(w, completion) => WorkChanges(s.workers, w, OnCallEnds(stage, s, w, completion).workers[w]);
    case WorkerObserves(w, reading) =>
      ObserveWorkers(stage, s, reading);
      WorkChanges(s.workers, w, AtHead);
    case MonitorObserves(reading) => ObserveWorkers(stage, s, reading);
    case _ =>
  }

  /** Past its deadline a stage hands out no index, and every step of a worker brings the worker closer to its end. */
  lemma LateStepsEnd(stage: Stage, startedAt: real, s: State, e: Event)
    requires PastDeadline(stage, startedAt, s.now) && Enabled(s, e) && WorkerEvent(e)
    ensures var r := Step(stage, startedAt, s, e);
      r.now == s.now && WorkersWork(r.workers) < WorkersWork(s.workers)
  {
    hide WorkersWork, Interval, ResultOf, ScenarioAt, Observe;
    match e
    case TakeCall(w) => WorkChanges(s.workers, w, Done);
    case Launch(w) => WorkChanges(s.workers, w, Done);
    case CallEnds(w, completion) => WorkChanges(s.workers, w, OnCallEnds(stage, s, w, completion).workers[w]);
    case WorkerObserves(w, reading) =>
      ObserveWorkers(stage, s, reading);
      WorkChanges(s.workers, w, AtHead);
  }

  /** What bounds the steps of the workers that are still to come. */
  function WorkLeft(stage: Stage, s: State): int {
    if stage.callCount.Some? then PoolWork(stage, s) else WorkersWork(s.workers)
  }

  /** The stage has a call count, or is past its deadline. */
  predicate Bounded(stage: Stage, startedAt: real, s: State) {
    stage.callCount.Some? || PastDeadline(stage, startedAt, s.now)
  }

  function WorkerSteps(events: seq<Event>): nat {
    if events == [] then 0
    else WorkerSteps(events[..|events| - 1]) + if WorkerEvent(events[|events| - 1]) then 1 else 0
  }

  lemma RunGrows(stage: Stage, baseline: Sample, startedAt: real, events: seq<Event>, more: seq<Event>, e: Event)
    requires Run(stage, baseline, startedAt, events + more).Some?
    requires Enabled(Run(stage, baseline, startedAt, events + more).value, e)
    ensures Run(stage, baseline, startedAt, events + (more + [e]))
         == Some(Step(stage, startedAt, Run(stage, baseline, startedAt, events + more).value, e))
    ensures WorkerSteps(more + [e]) == WorkerSteps(more) + if WorkerEvent(e) then 1 else 0
  {
    assert events + (more + [e]) == (events + more) + [e];
    assert (events + more + [e])[..|events + more|] == events + more;
    hide Enabled, Step;
  }

  /** The next step of a worker that has not returned; a sleeping one first lets its time pass. */
  function NextStep(s: State, w: nat): (e: Event)
    requires w < |s.workers| && !s.workers[w].Done?
    ensures WorkerEvent(e)
  {
    match s.workers[w]
    case AtHead => TakeCall(w)
    case Sleeping(_, _) => Launch(w)
    case Calling(_) => CallEnds(w, Threw)
    case _ => WorkerObserves(w, None)
  }

  function SleepLeft(s: State, w: nat): (d: real)
    requires w < |s.workers|
    ensures d >= 0.0
  {
    if s.workers[w].Sleeping? then RealMax(0.0, s.workers[w].due - s.now) else 0.0
  }

  /** Time passes until the worker can make its step, and it makes it: there is less work left. */
  lemma WorkerMakesStep(stage: Stage, startedAt: real, s: State, w: nat)
    requires Bounded(stage, startedAt, s) && w < |s.workers| && !s.workers[w].Done?
    ensures var later := Step(stage, startedAt, s, TimePasses(SleepLeft(s, w))); var e := NextStep(s, w);
      && Enabled(later, e)
      && var r := Step(stage, startedAt, later, e);
      Bounded(stage, startedAt, r) && 0 <= WorkLeft(stage, r) < WorkLeft(stage, s)
  {
    var later, e := s.(now := s.now + SleepLeft(s, w)), NextStep(s, w);
    assert Enabled(later, e) && WorkerEvent(e) && WorkLeft(stage, later) == WorkLeft(stage, s);
    assert Step(stage, startedAt, s, TimePasses(SleepLeft(s, w))) == later;
    hide WorkersWork, SleepLeft, NextStep, Step, Enabled, WorkerEvent;
    WorkerKeepsTime(stage, startedAt, later, e);
    if stage.callCount.Some? {
      WorkerStepsEnd(stage, startedAt, later, e);
    } else {
      LateStepsEnd(stage, startedAt, later, e);
    }
  }

  lemma WorkerKeepsTime(stage: Stage, startedAt: real, s: State, e: Event)
    requires Enabled(s, e) && WorkerEvent(e)
    ensures Step(stage, startedAt, s, e).now == s.now
  {
    hide Interval, MayTake, PastDeadline, ResultOf, ScenarioAt, Observe;
    if e.WorkerObserves? {
      ObserveWorkers(stage, s, e.reading);
    }
  }

  /** The workers' own steps lead to a state in which all have returned. */
  lemma {:induction false} WorkersReachEnd(stage: Stage, baseline: Sample, startedAt: real, events: seq<Event>,
                                           before: seq<Event>) returns (more: seq<Event>)
    requires Run(stage, baseline, startedAt, events + before).Some?
    requires Bounded(stage, startedAt, Run(stage, baseline, startedAt, events + before).value)
    ensures Run(stage, baseline, startedAt, events + more).Some?
    ensures AllDone(Run(stage, baseline, startedAt, events + more).value)
    ensures WorkerSteps(more)
         <= WorkerSteps(before) + WorkLeft(stage, Run(stage, baseline, startedAt, events + before).value)
    decreases WorkLeft(stage, Run(stage, baseline, startedAt, events + before).value)
  {
    var s := Run(stage, baseline, startedAt, events + before).value;
    if AllDone(s) {
      more := before;
    } else {
      var w :| 0 <= w < |s.workers| && !s.workers[w].Done?;
      var pass, e := TimePasses(SleepLeft(s, w)), NextStep(s, w);
      WorkerMakesStep(stage, startedAt, s, w);
      hide Run, Step, WorkLeft, SleepLeft, NextStep, Bounded;
      RunGrows(stage, baseline, startedAt, events, before, pass);
      RunGrows(stage, baseline, startedAt, events, before + [pass], e);
      more := WorkersReachEnd(stage, baseline, startedAt, events, before + [pass] + [e]);
    }
  }

  /** Once its stop flag is up the monitor ends with its next step. */
  lemma StoppedMonitorEnds(stage: Stage, startedAt: real, s: State)
    requires AllDone(s) && s.monitorStopped && !s.monitor.Ended?
    ensures var e := if s.monitor.Waiting? then MonitorElapses else MonitorObserves(None);
      Enabled(s, e) && Finished(Step(stage, startedAt, s, e))
  {
    ObserveWorkers(stage, s, None);
    hide Observe;
  }

  /** Once the workers have returned, the monitor is stopped and ends. */
  lemma MonitorReachesEnd(stage: Stage, baseline: Sample, startedAt: real, events: seq<Event>, before: seq<Event>)
    returns (more: seq<Event>)
    requires Run(stage, baseline, startedAt, events + before).Some?
    requires AllDone(Run(stage, baseline, startedAt, events + before).value)
    ensures Run(stage, baseline, startedAt, events + more).Some?
    ensures Finished(Run(stage, baseline, startedAt, events + more).value)
    ensures WorkerSteps(more) == WorkerSteps(before)
  {
    var s := Run(stage, baseline, startedAt, events + before).value;
    var r := Step(stage, startedAt, s, StopMonitor);
    assert r.workers == s.workers && r.monitorStopped && AllDone(r);
    hide Run, Step, WorkerSteps;
    RunGrows(stage, baseline, startedAt, events, before, StopMonitor);
    more := before + [StopMonitor];
    if !r.monitor.Ended? {
      var e := if r.monitor.Waiting? then MonitorElapses else MonitorObserves(None);
      StoppedMonitorEnds(stage, startedAt, r);
      RunGrows(stage, baseline, startedAt, events, more, e);
      more := more + [e];
    }
  }

  /** From every reachable state of a stage with a call count or a deadline the pool can finish, with no more worker
    steps than the work that is left: a stage without a call count first lets its deadline pass. */
  lemma PoolCanFinish(stage: Stage, baseline: Sample, startedAt: real, events: seq<Event>) returns (more: seq<Event>)
    requires stage.callCount.Some? || stage.durationMs.Some?
    requires Run(stage, baseline, startedAt, events).Some?
    ensures Run(stage, baseline, startedAt, events + more).Some?
    ensures Finished(Run(stage, baseline, startedAt, events + more).value)
    ensures WorkerSteps(more) <= WorkLeft(stage, Run(stage, baseline, startedAt, events).value)
  {
    var s := Run(stage, baseline, startedAt, events).value;
    assert events + [] == events;
    more := [];
    if !Bounded(stage, startedAt, s) {
      var pass := TimePasses(RealMax(0.0, startedAt + stage.durationMs.value - s.now));
      RunGrows(stage, baseline, startedAt, events, [], pass);
      more := [] + [pass];
    }
    hide Run, Step, Finished, AllDone;
    more := WorkersReachEnd(stage, baseline, startedAt, events, more);
    more := MonitorReachesEnd(stage, baseline, startedAt, events, more);
  }
}
