/** What every run of the playback queue guarantees. */
module PlaybackTheorems {
  import opened Options
  import opened TwilioProtocol
  import opened PlaybackModel
  import opened PlaybackInvariants

  // ---------------------------------------------------------------- no lost wake-up

  /** At most one `drain` exists, and queued work always has one that will reach it: suspended in a wait,
    or settled with the `finally` that restarts it still to run. */
  lemma NoLostWakeUp(c: Config, events: seq<Event>)
    requires Run(c, events).Some?
    ensures var s := Run(c, events).value;
      && |s.loops| <= 1 && (s.drainPromise <==> |s.loops| == 1)
      && (s.queue != [] ==> Enabled(s, Resume(0)) || Enabled(s, RunFinally(0)))
  {
    RunFaithful(c, events);
  }

  /** When `waitUntilIdle` returns, every received item has met its end. */
  lemma IdleMeansFinished(c: Config, events: seq<Event>)
    requires Run(c, events).Some? && !Run(c, events).value.drainPromise
    ensures var s := Run(c, events).value;
      s.queue == [] && forall f :: f in HistoryOf(s.log).fates ==> !Held(f)
  {
    RunFaithful(c, events);
  }

  function Work(s: State): nat {
    3 * |s.queue| + if s.loops == [] then 0 else if s.loops[0].Settled? then 1 else 2
  }

  lemma DrainStepWorks(c: Config, s: State, e: Event)
    requires Inv(s) && Enabled(s, e) && (e.Resume? || e.RunFinally?)
    ensures Work(Step(c, s, e)) < Work(s)
  {
    assert |s.loops| <= 1 && (s.cancelled ==> s.queue == []) && (s.queue != [] ==> s.drainPromise);
    assert |s.loops| == 1 ==> s.drainPromise;
    hide HistoryOf, Inv, Agrees, VerifyCallFingerprint;
    if e.RunFinally? {
      FinallyWorks(s);
    } else {
      ResumeWorks(c, s);
    }
  }

  lemma FinallyWorks(s: State)
    requires |s.loops| == 1 && s.loops[0].Settled? && s.drainPromise
    ensures Work(OnFinally(s, 0)) < Work(s)
  {
    assert s.loops[..0] + s.loops[1..] == [];
  }

  lemma ResumeWorks(c: Config, s: State)
    requires |s.loops| == 1 && s.loops[0].Waiting? && (s.cancelled ==> s.queue == [])
    ensures Work(OnResume(c, s, 0)) < Work(s)
  {
    hide VerifyCallFingerprint;
    if !s.cancelled {
      var t := AfterWait(c, s, 0);
      assert t.queue == s.queue && |t.loops| == 1;
      hide AfterWait;
    }
  }

  /** From every reachable state the loop's own steps, whatever their order, empty the queue within `Work` steps. */
  lemma {:induction false} DrainReachesIdle(c: Config, events: seq<Event>) returns (more: seq<Event>)
    requires Run(c, events).Some?
    ensures forall e :: e in more ==> e.Resume? || e.RunFinally?
    ensures |more| <= Work(Run(c, events).value)
    ensures Run(c, events + more).Some? && !Run(c, events + more).value.drainPromise
    decreases Work(Run(c, events).value)
  {
    RunFaithful(c, events);
    var s := Run(c, events).value;
    if !s.drainPromise {
      more := [];
      assert events + more == events;
    } else {
      var e := if s.loops[0].Settled? then RunFinally(0) else Resume(0);
      assert (events + [e])[..|events|] == events;
      DrainStepWorks(c, s, e);
      var rest := DrainReachesIdle(c, events + [e]);
      more := [e] + rest;
      assert events + more == events + [e] + rest;
    }
  }

  // ---------------------------------------------------------------- conservation of media

  /** How many of the first `n` items are media in this phase. */
  function MediaIn(h: History, n: nat, p: Phase): nat
    requires n <= |h.items| == |h.fates|
  {
    if n == 0 then 0
    else MediaIn(h, n - 1, p) + if h.items[n - 1].Media? && h.fates[n - 1].phase == p then 1 else 0
  }

  function MediaReceived(items: seq<Item>): nat {
    if items == [] then 0
    else MediaReceived(items[..|items| - 1]) + if items[|items| - 1].Media? then 1 else 0
  }

  lemma {:induction false} MediaPartition(h: History, n: nat)
    requires n <= |h.items| == |h.fates|
    ensures MediaReceived(h.items[..n]) ==
      MediaIn(h, n, Played) + MediaIn(h, n, Dropped) + MediaIn(h, n, Discarded) + MediaIn(h, n, Rejected)
      + MediaIn(h, n, Queued) + MediaIn(h, n, Playing) + MediaIn(h, n, Interrupted)
  {
    if n > 0 {
      MediaPartition(h, n - 1);
      assert h.items[..n][..n - 1] == h.items[..n - 1];
    }
  }

  /** Changing the phases of other items, or in ways that do not concern `p`, leaves the number alone. */
  lemma {:induction false} MediaInSame(g: History, h: History, n: nat, p: Phase)
    requires n <= |g.items| == |g.fates| && n <= |h.items| == |h.fates|
    requires forall k :: 0 <= k < n ==> g.items[k] == h.items[k]
    requires forall k :: 0 <= k < n && h.items[k].Media? ==> (g.fates[k].phase == p <==> h.fates[k].phase == p)
    ensures MediaIn(g, n, p) == MediaIn(h, n, p)
  {
    if n > 0 {
      MediaInSame(g, h, n - 1, p);
    }
  }

  lemma {:induction false} MediaInOneMore(g: History, h: History, n: nat, p: Phase, i: nat)
    requires i < n <= |g.items| == |g.fates| && n <= |h.items| == |h.fates|
    requires forall k :: 0 <= k < n ==> g.items[k] == h.items[k]
    requires forall k :: 0 <= k < n && k != i ==> (g.fates[k].phase == p <==> h.fates[k].phase == p)
    requires g.items[i].Media? && g.fates[i].phase != p && h.fates[i].phase == p
    ensures MediaIn(h, n, p) == MediaIn(g, n, p) + 1
  {
    if i == n - 1 {
      MediaInSame(g, h, n - 1, p);
    } else {
      MediaInOneMore(g, h, n - 1, p, i);
    }
  }

  ghost predicate EveryPlayedFrameVerifies(c: Config, h: History)
    requires |h.items| == |h.fates|
  {
    forall k :: 0 <= k < |h.items| && h.items[k].Media? && h.fates[k].phase.Played?
      ==> VerifyCallFingerprint(h.items[k].payload, c.fingerprint)
  }

  ghost predicate CountsPlayed(c: Config, log: seq<Entry>) {
    var h := HistoryOf(log);
    && ObservedOf(c, log).outboundFrameCount == MediaIn(h, |h.items|, Played)
    && (ObservedOf(c, log).fingerprintMatched <==> EveryPlayedFrameVerifies(c, h))
  }

  /** One entry counts a frame exactly when it ends an uninterrupted wait for media. */
  lemma EntryCountsPlayed(c: Config, o: Observed, g: History, e: Entry)
    requires |g.items| == |g.fates| && o.outboundFrameCount == MediaIn(g, |g.items|, Played)
    requires o.fingerprintMatched <==> EveryPlayedFrameVerifies(c, g)
    ensures var r, h := Observe(c, o, g, e), Extend(g, e);
      && r.outboundFrameCount == MediaIn(h, |h.items|, Played)
      && (r.fingerprintMatched <==> EveryPlayedFrameVerifies(c, h))
  {
    var h := Extend(g, e);
    hide Dedup, HeldNames, VerifyCallFingerprint;
    if e.Ended? && e.serial < |g.items| && g.fates[e.serial].phase.Playing? && g.items[e.serial].Media? {
      MediaInOneMore(g, h, |g.items|, Played, e.serial);
    } else {
      MediaInSame(g, h, |g.items|, Played);
    }
  }

  lemma {:induction false} LogCountsPlayed(c: Config, log: seq<Entry>)
    ensures CountsPlayed(c, log)
  {
    if log != [] {
      var before, e := log[..|log| - 1], log[|log| - 1];
      LogCountsPlayed(c, before);
      hide Observe, Extend, MediaIn, EveryPlayedFrameVerifies;
      EntryCountsPlayed(c, ObservedOf(c, before), HistoryOf(before), e);
    }
  }

  function QueuedMedia(queue: seq<Item>): nat {
    MediaReceived(queue)
  }

  function InFlightMedia(s: State): nat {
    if |s.loops| == 1 && s.loops[0].Waiting? && s.loops[0].item.Media? && !s.cancelled then 1 else 0
  }

  lemma {:induction false} QueuedAreCounted(s: State, h: History, n: nat)
    requires Agrees(s, h) && n <= s.arrivals
    ensures n <= s.arrivals - |s.queue| ==> MediaIn(h, n, Queued) == 0
    ensures n >= s.arrivals - |s.queue| ==>
      MediaIn(h, n, Queued) == MediaReceived(s.queue[..n - (s.arrivals - |s.queue|)])
  {
    if n > 0 {
      QueuedAreCounted(s, h, n - 1);
      var began := s.arrivals - |s.queue|;
      if n > began {
        assert s.queue[..n - began][..n - began - 1] == s.queue[..n - began - 1];
      }
    }
  }

  lemma {:induction false} InFlightIsCounted(s: State, h: History, n: nat)
    requires Agrees(s, h) && n <= s.arrivals
    ensures MediaIn(h, n, Playing) + MediaIn(h, n, Interrupted) ==
      if InFlightMedia(s) == 1 && s.loops[0].item.serial < n then 1 else 0
  {
    if n > 0 {
      InFlightIsCounted(s, h, n - 1);
      assert Live(h.fates[n - 1].phase) ==> s.loops == [Waiting(h.items[n - 1])];
    }
  }

  /** Nothing is lost and nothing is counted twice: every received media item is counted, dropped by a `clear`,
    discarded by `cancel`, rejected as empty, queued, or in flight, and the result's counter counts the first group. */
  lemma MediaConserved(c: Config, events: seq<Event>)
    requires Run(c, events).Some?
    ensures var s := Run(c, events).value; var h := HistoryOf(s.log); var n := |h.items|;
      && s.outboundFrameCount == MediaIn(h, n, Played)
      && MediaReceived(h.items) == s.outboundFrameCount + MediaIn(h, n, Dropped) + MediaIn(h, n, Discarded)
           + MediaIn(h, n, Rejected) + QueuedMedia(s.queue) + InFlightMedia(s)
  {
    RunFaithful(c, events);
    var s := Run(c, events).value;
    var h := HistoryOf(s.log);
    LogCountsPlayed(c, s.log);
    MediaPartition(h, |h.items|);
    assert h.items[..|h.items|] == h.items;
    QueuedAreCounted(s, h, s.arrivals);
    assert s.queue[..|s.queue|] == s.queue;
    InFlightIsCounted(s, h, s.arrivals);
  }

  /** The fingerprint flag speaks for exactly the frames that were counted. */
  lemma FingerprintFlagIsExact(c: Config, events: seq<Event>)
    requires Run(c, events).Some?
    ensures var s := Run(c, events).value;
      s.fingerprintMatched <==> EveryPlayedFrameVerifies(c, HistoryOf(s.log))
  {
    RunFaithful(c, events);
    LogCountsPlayed(c, Run(c, events).value.log);
  }

  // ---------------------------------------------------------------- counted means uninterrupted

  /** No `clear` and no `cancel` since item `k` arrived, read off the log alone. */
  predicate Untouched(log: seq<Entry>, k: nat) {
    log != []
    && var e := log[|log| - 1];
    if e.Arrived? && e.item.serial == k then true
    else !e.ClearedAll? && !e.CancelledAll? && Untouched(log[..|log| - 1], k)
  }

  /** The wait of item `k` ended with no `clear` and no `cancel` since the item arrived. */
  predicate EndedUntouched(log: seq<Entry>, k: nat) {
    log != []
    && (EndedUntouched(log[..|log| - 1], k)
        || (log[|log| - 1] == Ended(k) && Untouched(log[..|log| - 1], k)))
  }

  ghost predicate WitnessedAt(log: seq<Entry>, f: Fate, k: nat) {
    && (f.phase.Queued? || f.phase.Playing? ==> Untouched(log, k))
    && (f.phase.Interrupted? ==> !Untouched(log, k))
    && (f.phase.Played? <==> EndedUntouched(log, k))
  }

  ghost predicate Witnessed(log: seq<Entry>) {
    var h := HistoryOf(log);
    forall k :: 0 <= k < |h.items| ==> WitnessedAt(log, h.fates[k], k)
  }

  /** Which entries the queue may write, given the fates so far: waits end in arrival order, only media are refused. */
  ghost predicate Lawful(h: History, e: Entry)
    requires |h.items| == |h.fates|
  {
    match e
    case Arrived(item) => item.serial == |h.items|
    case Refused(k) => k < |h.items| && h.items[k].Media?
    case Ended(k) => k < |h.items| && Live(h.fates[k].phase) && forall j :: 0 <= j < k ==> !Silent(h.fates[j])
    case _ => true
  }

  /** Queued, or playing and not cleared: nobody has been told about the item yet. */
  predicate Silent(f: Fate) {
    f.phase.Queued? || f.phase.Playing?
  }

  predicate EndsCancelled(log: seq<Entry>) {
    log != [] && log[|log| - 1].CancelledAll?
  }

  /** Lawful entries, and none after a `cancel`. */
  ghost predicate LawfulLog(log: seq<Entry>) {
    log == []
    || var before := log[..|log| - 1];
       LawfulLog(before) && !EndsCancelled(before) && Lawful(HistoryOf(before), log[|log| - 1])
  }

  ghost predicate Orderly(s: State) {
    LawfulLog(s.log) && (s.cancelled <==> EndsCancelled(s.log))
  }

  lemma LawfulSnoc(log: seq<Entry>, e: Entry)
    requires LawfulLog(log) && !EndsCancelled(log) && Lawful(HistoryOf(log), e)
    ensures LawfulLog(log + [e])
  {
  }

  lemma HeadOrderly(s: State, i: nat)
    requires Agrees(s, HistoryOf(s.log)) && Orderly(s) && !s.cancelled && i < |s.loops|
    ensures Orderly(Head(s, i))
  {
    if s.queue != [] {
      LawfulSnoc(s.log, HeadEntry(s));
      hide LawfulLog;
    }
  }

  lemma ArrivalOrderly(s: State, item: Item)
    requires Inv(s) && Orderly(s) && !s.cancelled && item.serial == s.arrivals && item.generation == s.generation
    ensures Orderly(StartDrain(Push(s, item)))
  {
    LawfulSnoc(s.log, Arrived(item));
    PushAgrees(s, item);
    var t := Push(s, item);
    assert Orderly(t) by { hide LawfulLog; }
    if !t.drainPromise {
      assert t.loops + [Running] == [Running];
      assert Agrees(t.(loops := [Running]), HistoryOf(t.log)) by { hide HistoryOf; }
      hide HistoryOf, LawfulLog, Agrees, Head;
      HeadOrderly(t.(loops := [Running]), 0);
    }
  }

  lemma WaitOrderly(c: Config, s: State)
    requires Inv(s) && Orderly(s) && !s.cancelled && Enabled(s, Resume(0))
    ensures Orderly(OnResume(c, s, 0))
  {
    var item, h := s.loops[0].item, HistoryOf(s.log);
    assert WaitAgrees(s, h, item);
    forall j | 0 <= j < item.serial ensures !Silent(h.fates[j]) {
      assert h.items[j] != item;
      assert s.loops != [Waiting(h.items[j])];
    }
    LawfulSnoc(s.log, Ended(item.serial));
    WaitExtends(c, s, h);
    HistorySnoc(s.log, Ended(item.serial));
    HeadOrderly(AfterWait(c, s, 0), 0);
  }

  lemma RestartOrderly(s: State, i: nat)
    requires Inv(s) && Orderly(s) && Enabled(s, RunFinally(i))
    ensures Orderly(OnFinally(s, i))
  {
    var t := s.(loops := s.loops[..i] + s.loops[i + 1..], drainPromise := false);
    assert t.loops == [] && Orderly(t) && (t.queue != [] ==> !t.cancelled);
    assert Agrees(t.(loops := [Running]), HistoryOf(t.log)) by { hide HistoryOf; }
    if t.queue != [] {
      assert t.loops + [Running] == [Running];
      hide HistoryOf, LawfulLog, Agrees, Head;
      HeadOrderly(t.(loops := [Running]), 0);
    }
  }

  lemma StepOrderly(c: Config, s: State, e: Event)
    requires Inv(s) && Orderly(s) && Enabled(s, e)
    ensures Orderly(Step(c, s, e))
  {
    match e
    case Receive(m) =>
      if !s.cancelled && !ReceiveOutcome(c, s, m).Threw? {
        if m.event.MediaEvent? && m.payload.Some? {
          ArrivalOrderly(s, Media(s.arrivals, s.generation, m.payload.value));
        } else if m.event.MarkEvent? && m.markName.Some? {
          ArrivalOrderly(s, Mark(s.arrivals, s.generation, m.markName.value));
        } else if m.event.ClearEvent? {
          LawfulSnoc(s.log, ClearedAll);
        }
      }
    case Cancel =>
      if !s.cancelled {
        LawfulSnoc(s.log, CancelledAll);
      }
    case Resume(i) =>
      if !s.cancelled {
        WaitOrderly(c, s);
      }
    case RunFinally(i) => RestartOrderly(s, i);
  }

  lemma {:induction false} RunOrderly(c: Config, events: seq<Event>)
    requires Run(c, events).Some?
    ensures Orderly(Run(c, events).value)
  {
    if events != [] {
      var before := events[..|events| - 1];
      RunOrderly(c, before);
      RunFaithful(c, before);
      StepOrderly(c, Run(c, before).value, events[|events| - 1]);
    }
  }

  lemma {:induction false} NotEndedEarly(log: seq<Entry>, k: nat)
    requires LawfulLog(log) && k >= |HistoryOf(log).items|
    ensures !EndedUntouched(log, k)
  {
    if log != [] {
      var before := log[..|log| - 1];
      NotEndedEarly(before, k);
    }
  }

  lemma WitnessStep(log: seq<Entry>, k: nat)
    requires log != [] && LawfulLog(log)
    requires var before := log[..|log| - 1]; var h := HistoryOf(before); var e := log[|log| - 1];
      && Lawful(h, e)
      && if k < |h.items| then WitnessedAt(before, h.fates[k], k)
         else k == |h.items| && e.Arrived? && !EndedUntouched(before, k)
    ensures WitnessedAt(log, HistoryOf(log).fates[k], k)
  {
  }

  lemma {:induction false} LogWitnessed(log: seq<Entry>)
    requires LawfulLog(log)
    ensures Witnessed(log)
  {
    if log != [] {
      var before, e := log[..|log| - 1], log[|log| - 1];
      LogWitnessed(before);
      forall k | 0 <= k < |HistoryOf(log).items| ensures WitnessedAt(log, HistoryOf(log).fates[k], k) {
        if k == |HistoryOf(before).items| {
          NotEndedEarly(before, k);
        }
        WitnessStep(log, k);
      }
    }
  }

  /** An item is played - a frame counted, a mark acknowledged at the end of its latency - exactly when its wait
    ended with no `clear` and no `cancel` since it was received. */
  lemma PlayedExactlyWhenUntouched(c: Config, events: seq<Event>, k: nat)
    requires Run(c, events).Some? && k < |HistoryOf(Run(c, events).value.log).items|
    ensures var log := Run(c, events).value.log;
      HistoryOf(log).fates[k].phase.Played? <==> EndedUntouched(log, k)
  {
    RunOrderly(c, events);
    LogWitnessed(Run(c, events).value.log);
  }

  // ---------------------------------------------------------------- acknowledgements

  ghost predicate DistinctMarks(items: seq<Item>) {
    forall i, j :: 0 <= i < j < |items| && items[i].Mark? && items[j].Mark? ==> items[i].name != items[j].name
  }

  lemma {:induction false} DedupCounts(names: seq<string>, x: string)
    ensures multiset(Dedup(names))[x] == if x in names then 1 else 0
  {
    if names != [] {
      DedupCounts(names[..|names| - 1], x);
      assert names == names[..|names| - 1] + [names[|names| - 1]];
    }
  }

  lemma {:induction false} HeldNamesHold(h: History, n: nat, x: string)
    requires n <= |h.items| == |h.fates|
    ensures x in HeldNames(h, n) <==>
      exists k :: 0 <= k < n && h.items[k].Mark? && Held(h.fates[k]) && h.items[k].name == x
  {
    if n > 0 {
      HeldNamesHold(h, n - 1, x);
    }
  }

  ghost predicate IsMarkName(h: History, x: string) {
    exists k :: 0 <= k < |h.items| && h.items[k].Mark? && h.items[k].name == x
  }

  ghost predicate AckedAsOwed(acked: seq<string>, h: History, k: nat)
    requires k < |h.items| == |h.fates|
  {
    h.items[k].Mark? ==> multiset(acked)[h.items[k].name] == h.fates[k].acks
  }

  ghost predicate AcksExact(acked: seq<string>, h: History)
    requires |h.items| == |h.fates|
  {
    && (forall k :: 0 <= k < |h.items| ==> AckedAsOwed(acked, h, k))
    && (forall x :: x in multiset(acked) ==> IsMarkName(h, x))
  }

  lemma HeldOnce(h: History, k: nat)
    requires k < |h.items| == |h.fates| && DistinctMarks(h.items) && h.items[k].Mark?
    ensures multiset(Dedup(HeldNames(h, |h.items|)))[h.items[k].name] == if Held(h.fates[k]) then 1 else 0
  {
    var names, name := HeldNames(h, |h.items|), h.items[k].name;
    DedupCounts(names, name);
    HeldNamesHold(h, |h.items|, name);
    hide HeldNames, Dedup;
    if name in names {
      var j :| 0 <= j < |h.items| && h.items[j].Mark? && Held(h.fates[j]) && h.items[j].name == name;
      assert j == k;
    }
  }

  lemma ClearAcks(acked: seq<string>, h: History, k: nat)
    requires k < |h.items| == |h.fates| && DistinctMarks(h.items) && AckedAsOwed(acked, h, k)
    ensures AckedAsOwed(acked + Dedup(HeldNames(h, |h.items|)), Extend(h, ClearedAll), k)
  {
    if h.items[k].Mark? {
      hide HeldNames, Dedup, DistinctMarks;
      HeldOnce(h, k);
      var names, r := Dedup(HeldNames(h, |h.items|)), Extend(h, ClearedAll);
      assert r.items == h.items && r.fates[k].acks == h.fates[k].acks + if Held(h.fates[k]) then 1 else 0;
      hide Extend, Held;
      CountsJoin(acked, names, h.items[k].name);
    }
  }

  lemma CountsJoin(a: seq<string>, b: seq<string>, x: string)
    ensures multiset(a + b)[x] == multiset(a)[x] + multiset(b)[x]
  {
    assert multiset(a + b) == multiset(a) + multiset(b);
  }

  lemma EntryAcksAsOwed(c: Config, o: Observed, h: History, e: Entry, k: nat)
    requires !c.loseMarks && k < |h.items| == |h.fates| && DistinctMarks(h.items) && AckedAsOwed(o.acked, h, k)
    ensures AckedAsOwed(Observe(c, o, h, e).acked, Extend(h, e), k)
  {
    if e.ClearedAll? {
      ClearAcks(o.acked, h, k);
    } else if e.Ended? && e.serial < |h.items| && h.items[e.serial].Mark? && h.items[k].Mark? {
      assert h.items[e.serial].name == h.items[k].name <==> e.serial == k;
    }
  }

  lemma EntryAcksMarks(c: Config, o: Observed, h: History, e: Entry, x: string)
    requires |h.items| == |h.fates| && x in multiset(Observe(c, o, h, e).acked)
    requires x in multiset(o.acked) ==> IsMarkName(h, x)
    ensures IsMarkName(h, x)
  {
    if x !in multiset(o.acked) && e.ClearedAll? {
      DedupCounts(HeldNames(h, |h.items|), x);
      HeldNamesHold(h, |h.items|, x);
    }
  }

  lemma EntryAcksExact(c: Config, o: Observed, h: History, e: Entry)
    requires !c.loseMarks && |h.items| == |h.fates| && DistinctMarks(Extend(h, e).items) && AcksExact(o.acked, h)
    ensures AcksExact(Observe(c, o, h, e).acked, Extend(h, e))
  {
    var r, n, acked := Extend(h, e), |h.items|, Observe(c, o, h, e).acked;
    assert r.items[..n] == h.items;
    forall x | x in multiset(acked) ensures IsMarkName(r, x) {
      EntryAcksMarks(c, o, h, e, x);
      var k :| 0 <= k < n && h.items[k].Mark? && h.items[k].name == x;
      assert r.items[k] == h.items[k];
    }
    assert DistinctMarks(h.items) by {
      assert forall k :: 0 <= k < n ==> h.items[k] == r.items[k];
    }
    forall k | 0 <= k < |r.items| ensures AckedAsOwed(acked, r, k) {
      if k < n {
        EntryAcksAsOwed(c, o, h, e, k);
      } else if r.items[k].Mark? {
        assert !IsMarkName(h, r.items[k].name) by {
          assert forall j :: 0 <= j < n ==> h.items[j] == r.items[j];
        }
      }
    }
  }

  lemma {:induction false} LogAcksExact(c: Config, log: seq<Entry>)
    requires !c.loseMarks && DistinctMarks(HistoryOf(log).items)
    ensures AcksExact(ObservedOf(c, log).acked, HistoryOf(log))
  {
    if log != [] {
      var before := log[..|log| - 1];
      var g := HistoryOf(before);
      assert HistoryOf(log).items[..|g.items|] == g.items;
      LogAcksExact(c, before);
      EntryAcksExact(c, ObservedOf(c, before), g, log[|log| - 1]);
    }
  }

  lemma {:induction false} FateShape(log: seq<Entry>, k: nat)
    requires k < |HistoryOf(log).fates|
    ensures var f := HistoryOf(log).fates[k];
      && f.acks == f.clears + (if f.phase.Played? then 1 else 0)
      && (f.phase.Queued? || f.phase.Playing? || f.phase.Played? ==> f.clears == 0)
      && (f.phase.Interrupted? ==> f.clears > 0)
  {
    if k < |HistoryOf(log[..|log| - 1]).fates| {
      FateShape(log[..|log| - 1], k);
    }
  }

  /** The exact number of acknowledgements of a mark with a name of its own: one for each `clear` that found it held,
    or one at the end of its latency when no `clear` did. */
  lemma AcknowledgedExactly(c: Config, events: seq<Event>, k: nat)
    requires Run(c, events).Some? && !c.loseMarks
    requires var h := HistoryOf(Run(c, events).value.log);
      k < |h.items| && h.items[k].Mark? && DistinctMarks(h.items)
    ensures var s := Run(c, events).value; var h := HistoryOf(s.log);
      multiset(s.acked)[h.items[k].name] ==
        if h.fates[k].clears > 0 then h.fates[k].clears else if h.fates[k].phase.Played? then 1 else 0
  {
    RunFaithful(c, events);
    LogAcksExact(c, Run(c, events).value.log);
    assert AckedAsOwed(Run(c, events).value.acked, HistoryOf(Run(c, events).value.log), k);
    FateShape(Run(c, events).value.log, k);
  }

  /** A name is acknowledged twice exactly when a second `clear` finds its mark still waiting out its latency. */
  lemma DoubleAcknowledgementExactly(c: Config, events: seq<Event>)
    requires Run(c, events).Some? && !c.loseMarks
    requires DistinctMarks(HistoryOf(Run(c, events).value.log).items)
    ensures var s := Run(c, events).value; var h := HistoryOf(s.log);
      (exists x :: multiset(s.acked)[x] > 1) <==>
      (exists k :: 0 <= k < |h.items| && h.items[k].Mark? && h.fates[k].clears > 1)
  {
    RunFaithful(c, events);
    var s := Run(c, events).value;
    var h := HistoryOf(s.log);
    LogAcksExact(c, s.log);
    if x :| multiset(s.acked)[x] > 1 {
      assert IsMarkName(h, x);
      var k :| 0 <= k < |h.items| && h.items[k].Mark? && h.items[k].name == x;
      assert AckedAsOwed(s.acked, h, k);
      FateShape(s.log, k);
      assert h.fates[k].clears > 1;
    }
    if k :| 0 <= k < |h.items| && h.items[k].Mark? && h.fates[k].clears > 1 {
      assert AckedAsOwed(s.acked, h, k);
      FateShape(s.log, k);
      assert multiset(s.acked)[h.items[k].name] > 1;
    }
  }

  lemma {:induction false} LostMarksAreSilent(c: Config, log: seq<Entry>)
    requires c.loseMarks
    ensures ObservedOf(c, log).acked == []
  {
    if log != [] {
      LostMarksAreSilent(c, log[..|log| - 1]);
    }
  }

  /** Names of the first `n` marks that nobody has been told about: queued, or playing and not yet cleared. */
  function SilentNames(h: History, n: nat): seq<string>
    requires n <= |h.items| == |h.fates|
  {
    if n == 0 then []
    else
      SilentNames(h, n - 1) + if h.items[n - 1].Mark? && Silent(h.fates[n - 1]) then [h.items[n - 1].name] else []
  }

  lemma {:induction false} SilentSame(g: History, h: History, n: nat)
    requires n <= |g.items| == |g.fates| && n <= |h.items| == |h.fates|
    requires forall k :: 0 <= k < n ==> g.items[k] == h.items[k]
    requires forall k :: 0 <= k < n && h.items[k].Mark? ==> (Silent(g.fates[k]) <==> Silent(h.fates[k]))
    ensures SilentNames(g, n) == SilentNames(h, n)
  {
    if n > 0 {
      SilentSame(g, h, n - 1);
    }
  }

  lemma {:induction false} SilentNone(h: History, n: nat)
    requires n <= |h.items| == |h.fates|
    requires forall k :: 0 <= k < n ==> !Silent(h.fates[k])
    ensures SilentNames(h, n) == []
  {
    if n > 0 {
      SilentNone(h, n - 1);
    }
  }

  /** The first silent item stops being silent: its name leaves the front of the list. */
  lemma {:induction false} SilentHeadLeaves(g: History, h: History, n: nat, i: nat)
    requires i < n <= |g.items| == |g.fates| && n <= |h.items| == |h.fates|
    requires forall k :: 0 <= k < n ==> g.items[k] == h.items[k]
    requires forall k :: 0 <= k < i ==> !Silent(g.fates[k])
    requires forall k :: 0 <= k < n && k != i ==> g.fates[k] == h.fates[k]
    requires g.items[i].Mark? && g.fates[i].phase.Playing? && h.fates[i].phase.Played?
    ensures SilentNames(g, n) == [g.items[i].name] + SilentNames(h, n)
  {
    if i == n - 1 {
      SilentNone(g, n - 1);
      SilentNone(h, n - 1);
    } else {
      SilentHeadLeaves(g, h, n - 1, i);
    }
  }

  /** With no mark cleared twice, none is held that is not silent, so a `clear` acknowledges the silent ones. */
  lemma {:induction false} HeldAreSilent(h: History, n: nat)
    requires n <= |h.items| == |h.fates|
    requires forall k :: 0 <= k < n && h.items[k].Mark? ==> !h.fates[k].phase.Interrupted?
    ensures HeldNames(h, n) == SilentNames(h, n)
  {
    if n > 0 {
      HeldAreSilent(h, n - 1);
    }
  }

  ghost predicate NoRepeats(names: seq<string>) {
    forall i, j :: 0 <= i < j < |names| ==> names[i] != names[j]
  }

  lemma {:induction false} SilentDistinct(h: History, n: nat)
    requires n <= |h.items| == |h.fates| && DistinctMarks(h.items)
    ensures NoRepeats(SilentNames(h, n))
    ensures forall x :: x in SilentNames(h, n) ==> exists k :: 0 <= k < n && h.items[k].Mark? && h.items[k].name == x
  {
    if n > 0 {
      SilentDistinct(h, n - 1);
      var before := SilentNames(h, n - 1);
      assert forall i :: 0 <= i < |before| ==> before[i] in before;
    }
  }

  lemma {:induction false} DedupDistinct(names: seq<string>)
    requires NoRepeats(names)
    ensures Dedup(names) == names
  {
    if names != [] {
      DedupDistinct(names[..|names| - 1]);
    }
  }

  lemma {:induction false} MarkNamesSnoc(items: seq<Item>, item: Item)
    ensures MarkNames(items + [item]) == MarkNames(items) + if item.Mark? then [item.name] else []
  {
  }

  /** No mark was found by two `clear`s, before or during its latency; media may be. */
  ghost predicate ClearedOnce(h: History)
    requires |h.items| == |h.fates|
  {
    forall k :: 0 <= k < |h.items| && h.items[k].Mark? ==> h.fates[k].clears <= 1
  }

  ghost predicate AcksOrdered(acked: seq<string>, h: History)
    requires |h.items| == |h.fates|
  {
    acked + SilentNames(h, |h.items|) == MarkNames(h.items)
  }

  /** With no mark cleared twice, a `clear` finds none interrupted. */
  lemma NoneInterrupted(h: History)
    requires |h.items| == |h.fates| && ClearedOnce(Extend(h, ClearedAll))
    requires forall f :: f in h.fates && f.phase.Interrupted? ==> f.clears > 0
    ensures forall k :: 0 <= k < |h.items| && h.items[k].Mark? ==> !h.fates[k].phase.Interrupted?
  {
    var r := Extend(h, ClearedAll);
    forall k | 0 <= k < |h.items| && h.items[k].Mark? ensures !h.fates[k].phase.Interrupted? {
      assert r.items[k].Mark? && r.fates[k] == Advance(h.fates[k], k, ClearedAll) && h.fates[k] in h.fates;
    }
  }

  lemma ClearKeepsOrder(acked: seq<string>, h: History)
    requires |h.items| == |h.fates| && AcksOrdered(acked, h)
    requires DistinctMarks(h.items) && ClearedOnce(Extend(h, ClearedAll))
    requires forall f :: f in h.fates && f.phase.Interrupted? ==> f.clears > 0
    ensures AcksOrdered(acked + Dedup(HeldNames(h, |h.items|)), Extend(h, ClearedAll))
  {
    var n := |h.items|;
    NoneInterrupted(h);
    HeldAreSilent(h, n);
    SilentDistinct(h, n);
    DedupDistinct(SilentNames(h, n));
    NothingSilentAfter(h);
    hide SilentNames, HeldNames, Dedup, MarkNames, NoRepeats, DistinctMarks, ClearedOnce, Extend;
  }

  lemma NothingSilentAfter(h: History)
    requires |h.items| == |h.fates|
    ensures var r := Extend(h, ClearedAll); r.items == h.items && SilentNames(r, |h.items|) == []
  {
    var r := Extend(h, ClearedAll);
    assert r.items == h.items && |r.fates| == |h.items|;
    SilentNone(r, |h.items|);
    hide SilentNames;
  }

  lemma WaitKeepsOrder(c: Config, o: Observed, h: History, i: nat)
    requires |h.items| == |h.fates| && AcksOrdered(o.acked, h) && Lawful(h, Ended(i)) && !c.loseMarks
    ensures AcksOrdered(Observe(c, o, h, Ended(i)).acked, Extend(h, Ended(i)))
  {
    var r, n := Extend(h, Ended(i)), |h.items|;
    if i < n && h.fates[i].phase.Playing? && h.items[i].Mark? {
      SilentHeadLeaves(h, r, n, i);
      assert o.acked + ([h.items[i].name] + SilentNames(r, n)) == (o.acked + [h.items[i].name]) + SilentNames(r, n);
    } else {
      SilentSame(h, r, n);
    }
  }

  lemma EntryKeepsOrder(c: Config, o: Observed, h: History, e: Entry)
    requires |h.items| == |h.fates| && AcksOrdered(o.acked, h) && Lawful(h, e) && !e.CancelledAll? && !c.loseMarks
    requires DistinctMarks(h.items) && ClearedOnce(Extend(h, e))
    requires forall f :: f in h.fates && f.phase.Interrupted? ==> f.clears > 0
    ensures AcksOrdered(Observe(c, o, h, e).acked, Extend(h, e))
  {
    match e
    case Arrived(item) =>
      SilentSame(h, Extend(h, e), |h.items|);
      MarkNamesSnoc(h.items, item);
    case ClearedAll => ClearKeepsOrder(o.acked, h);
    case Ended(i) => WaitKeepsOrder(c, o, h, i);
    case Began(_) => SilentSame(h, Extend(h, e), |h.items|);
    case Refused(_) => SilentSame(h, Extend(h, e), |h.items|);
    case CancelledAll => assert false;
  }

  lemma ClearedOnceBefore(h: History, e: Entry)
    requires |h.items| == |h.fates| && ClearedOnce(Extend(h, e)) && DistinctMarks(Extend(h, e).items)
    ensures ClearedOnce(h) && DistinctMarks(h.items)
  {
    var r := Extend(h, e);
    assert forall k :: 0 <= k < |h.items| ==> h.items[k] == r.items[k] && h.fates[k].clears <= r.fates[k].clears;
  }

  lemma InterruptedWereCleared(log: seq<Entry>)
    ensures forall f :: f in HistoryOf(log).fates && f.phase.Interrupted? ==> f.clears > 0
  {
  }

  lemma {:induction false} LogKeepsOrder(c: Config, log: seq<Entry>)
    requires LawfulLog(log) && !c.loseMarks && DistinctMarks(HistoryOf(log).items) && ClearedOnce(HistoryOf(log))
    ensures ObservedOf(c, log).acked <= MarkNames(HistoryOf(log).items)
    ensures !EndsCancelled(log) ==> AcksOrdered(ObservedOf(c, log).acked, HistoryOf(log))
  {
    if log != [] {
      var before, e := log[..|log| - 1], log[|log| - 1];
      ClearedOnceBefore(HistoryOf(before), e);
      InterruptedWereCleared(before);
      LogKeepsOrder(c, before);
      if !e.CancelledAll? {
        EntryKeepsOrder(c, ObservedOf(c, before), HistoryOf(before), e);
      }
    }
  }

  lemma {:induction false} MarkNamesDistinct(items: seq<Item>)
    requires DistinctMarks(items)
    ensures NoRepeats(MarkNames(items))
    ensures forall x :: x in MarkNames(items) ==> exists k :: 0 <= k < |items| && items[k].Mark? && items[k].name == x
  {
    if items != [] {
      var init := items[..|items| - 1];
      MarkNamesDistinct(init);
      assert forall i :: 0 <= i < |MarkNames(init)| ==> MarkNames(init)[i] in MarkNames(init);
      assert forall k :: 0 <= k < |init| ==> init[k] == items[k];
    }
  }

  lemma {:induction false} OnceEach(names: seq<string>, x: string)
    requires NoRepeats(names)
    ensures multiset(names)[x] <= 1
  {
    if names != [] {
      var init := names[..|names| - 1];
      OnceEach(init, x);
      assert names == init + [names[|names| - 1]];
      assert x in init ==> exists i :: 0 <= i < |init| && names[i] == x;
    }
  }

  /** Without lost marks the acknowledgements are in arrival order, each once, exactly when no mark was cleared twice.
    They are then the names of the received marks up to those still silent; after `cancel` a prefix. */
  lemma AcknowledgedInOrder(c: Config, events: seq<Event>)
    requires Run(c, events).Some? && !c.loseMarks
    requires DistinctMarks(HistoryOf(Run(c, events).value.log).items)
    ensures var s := Run(c, events).value; var h := HistoryOf(s.log);
      && (s.acked <= MarkNames(h.items) <==> ClearedOnce(h))
      && (ClearedOnce(h) && !s.cancelled ==> s.acked + SilentNames(h, |h.items|) == MarkNames(h.items))
      && s.markAcknowledgements == |s.acked|
  {
    RunFaithful(c, events);
    RunOrderly(c, events);
    var s := Run(c, events).value;
    var h := HistoryOf(s.log);
    if ClearedOnce(h) {
      LogKeepsOrder(c, s.log);
    } else {
      DoubleAcknowledgementExactly(c, events);
      hide Run, HistoryOf, MarkNames, DistinctMarks;
      var x :| multiset(s.acked)[x] > 1;
      NotInOrder(s.acked, h.items, x);
    }
  }

  /** A name acknowledged twice is no part of the list of distinct names. */
  lemma NotInOrder(acked: seq<string>, items: seq<Item>, x: string)
    requires DistinctMarks(items) && multiset(acked)[x] > 1
    ensures !(acked <= MarkNames(items))
  {
    MarkNamesDistinct(items);
    if acked <= MarkNames(items) {
      assert NoRepeats(acked);
      OnceEach(acked, x);
      assert false;
    }
  }

  /** Once the queue is idle with no `cancel`, every received mark has been acknowledged once, in arrival order - exactly
    when no mark was cleared twice. */
  lemma IdleMeansAllAcknowledged(c: Config, events: seq<Event>)
    requires Run(c, events).Some? && !c.loseMarks
    requires var s := Run(c, events).value; !s.cancelled && !s.drainPromise
    requires DistinctMarks(HistoryOf(Run(c, events).value.log).items)
    ensures var s := Run(c, events).value; var h := HistoryOf(s.log); s.acked == MarkNames(h.items) <==> ClearedOnce(h)
  {
    var h := HistoryOf(Run(c, events).value.log);
    AcknowledgedInOrder(c, events);
    IdleMeansFinished(c, events);
    forall k | 0 <= k < |h.items| ensures !Silent(h.fates[k]) {
      assert h.fates[k] in h.fates;
    }
    SilentNone(h, |h.items|);
  }

  lemma LosingMarksAcknowledgesNone(c: Config, events: seq<Event>)
    requires Run(c, events).Some? && c.loseMarks
    ensures Run(c, events).value.acked == [] && Run(c, events).value.markAcknowledgements == 0
  {
    RunFaithful(c, events);
    LostMarksAreSilent(c, Run(c, events).value.log);
  }

  function MarkMessage(streamSid: string, name: string): Message {
    Message(MarkEvent, streamSid, None, Some(name))
  }

  function ClearMessage(streamSid: string): Message {
    Message(ClearEvent, streamSid, None, None)
  }

  /** `clear` leaves the active mark in place, so a second one acknowledges the same mark again. */
  lemma TwoClearsAcknowledgeTwice(c: Config, name: string)
    requires !c.loseMarks
    ensures var events :=
        [Receive(MarkMessage(c.streamSid, name)), Receive(ClearMessage(c.streamSid)), Receive(ClearMessage(c.streamSid))];
      Run(c, events).Some? && Run(c, events).value.acked == [name, name]
  {
    var mark, clear := Receive(MarkMessage(c.streamSid, name)), Receive(ClearMessage(c.streamSid));
    var s1 := Step(c, Initial(), mark);
    assert [mark][..0] == [] && Run(c, [mark]) == Some(s1);
    assert s1.activeMark == Some(Mark(0, 0, name)) && s1.queue == [];
    assert PendingMarks(s1) == [name];
    assert [name][..0] == [] && Dedup([name]) == [name];
    var s2 := Step(c, s1, clear);
    assert [mark, clear][..1] == [mark];
    assert Run(c, [mark, clear]) == Some(s2) && s2.acked == [name];
    assert PendingMarks(s2) == [name];
    assert [mark, clear, clear][..2] == [mark, clear];
  }
}
