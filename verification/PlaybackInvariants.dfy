/** Each received item watched on its own: a small automaton that reads the log and knows nothing of queues, loops or
  generations. The queue's state agrees with it in every run. */
module PlaybackInvariants {
  import opened Options
  import opened TwilioProtocol
  import opened PlaybackModel

  /** `Interrupted` is playing when a `clear` came; `Dropped` is removed by a `clear`, `Discarded` by `cancel`. */
  datatype Phase = Queued | Playing | Interrupted | Played | Dropped | Discarded | Rejected

  /** `clears` counts the `clear`s that found the item queued or playing, `acks` the acknowledgements it is owed. */
  datatype Fate = Fate(phase: Phase, clears: nat, acks: nat)

  datatype History = History(items: seq<Item>, fates: seq<Fate>)

  function Advance(f: Fate, k: nat, e: Entry): Fate {
    match e
    case Arrived(_) => f
    case Began(serial) => if serial == k && f.phase.Queued? then f.(phase := Playing) else f
    case Refused(serial) => if serial == k && f.phase.Queued? then f.(phase := Rejected) else f
    case Ended(serial) =>
      if serial != k then f
      else if f.phase.Playing? then f.(phase := Played, acks := f.acks + 1)
      else if f.phase.Interrupted? then f.(phase := Dropped)
      else f
    case ClearedAll =>
      if f.phase.Queued? then Fate(Dropped, f.clears + 1, f.acks + 1)
      else if f.phase.Playing? || f.phase.Interrupted? then Fate(Interrupted, f.clears + 1, f.acks + 1)
      else f
    case CancelledAll =>
      if f.phase.Queued? || f.phase.Playing? then f.(phase := Discarded)
      else if f.phase.Interrupted? then f.(phase := Dropped)
      else f
  }

  function Extend(h: History, e: Entry): (r: History)
    requires |h.items| == |h.fates|
    ensures |r.items| == |r.fates|
  {
    if e.Arrived? then History(h.items + [e.item], h.fates + [Fate(Queued, 0, 0)])
    else h.(fates := seq(|h.fates|, k requires 0 <= k < |h.fates| => Advance(h.fates[k], k, e)))
  }

  function HistoryOf(log: seq<Entry>): (h: History)
    ensures |h.items| == |h.fates|
  {
    if log == [] then History([], []) else Extend(HistoryOf(log[..|log| - 1]), log[|log| - 1])
  }

  lemma HistorySnoc(log: seq<Entry>, e: Entry)
    ensures HistoryOf(log + [e]) == Extend(HistoryOf(log), e)
  {
  }

  // ---------------------------------------------------------------- structure

  predicate Live(p: Phase) {
    p.Playing? || p.Interrupted?
  }

  /** Everything the queue, its loop and its active mark say about the items. */
  ghost predicate Agrees(s: State, h: History) {
    && |h.items| == |h.fates| == s.arrivals
    && |s.queue| <= s.arrivals
    && (forall k :: 0 <= k < |h.items| ==> h.items[k].serial == k)
    && (forall i :: 0 <= i < |s.queue| ==>
          s.queue[i] == h.items[s.arrivals - |s.queue| + i] && s.queue[i].generation == s.generation)
    && (forall k :: 0 <= k < s.arrivals ==> (h.fates[k].phase.Queued? <==> s.arrivals - |s.queue| <= k))
    && |s.loops| <= 1
    && (forall k :: 0 <= k < s.arrivals && Live(h.fates[k].phase) ==> !s.cancelled && s.loops == [Waiting(h.items[k])])
    && (|s.loops| == 1 && s.loops[0].Waiting? ==> WaitAgrees(s, h, s.loops[0].item))
    && (s.cancelled ==> s.queue == [] && s.activeMark.None?)
    && (!s.cancelled ==> s.activeMark == WaitingMark(s.loops))
  }

  function WaitingMark(loops: seq<Loop>): Option<Item> {
    if |loops| == 1 && loops[0].Waiting? && loops[0].item.Mark? then Some(loops[0].item) else None
  }

  ghost predicate WaitAgrees(s: State, h: History, item: Item)
    requires |h.items| == |h.fates| == s.arrivals
  {
    && item.serial < s.arrivals - |s.queue| && h.items[item.serial] == item
    && (item.Media? ==> item.payload != [])
    && item.generation <= s.generation
    && (!s.cancelled ==>
          h.fates[item.serial].phase == if item.generation == s.generation then Playing else Interrupted)
  }

  /** In addition, between steps: no loop is running, and work is never left without a loop. */
  ghost predicate Settledness(s: State) {
    && (s.drainPromise <==> |s.loops| == 1)
    && (s.queue != [] ==> s.drainPromise)
    && (|s.loops| == 1 ==> !s.loops[0].Running?)
  }

  ghost predicate Inv(s: State) {
    Agrees(s, HistoryOf(s.log)) && Settledness(s)
  }

  lemma AgreesInitially()
    ensures Inv(Initial())
  {
  }

  lemma PushAgrees(s: State, item: Item)
    requires Agrees(s, HistoryOf(s.log)) && !s.cancelled
    requires item.serial == s.arrivals && item.generation == s.generation
    ensures Agrees(Push(s, item), HistoryOf(Push(s, item).log))
  {
    HistorySnoc(s.log, Arrived(item));
    PushExtends(s, HistoryOf(s.log), item);
    hide HistoryOf, Agrees;
  }

  lemma PushExtends(s: State, h: History, item: Item)
    requires Agrees(s, h) && !s.cancelled && item.serial == s.arrivals && item.generation == s.generation
    ensures Agrees(Push(s, item), Extend(h, Arrived(item)))
  {
  }

  /** What the head of the loop writes to the log when the queue is not empty. */
  function HeadEntry(s: State): Entry
    requires s.queue != []
  {
    var item := s.queue[0];
    if item.Media? && item.payload == [] then Refused(item.serial) else Began(item.serial)
  }

  /** The head takes one item off the queue and waits for it, or gives up on an empty payload. */
  lemma HeadShape(s: State)
    requires s.loops == [Running] && s.queue != []
    ensures var t := Head(s, 0);
      && t == s.(queue := s.queue[1..], loops := t.loops, activeMark := t.activeMark, log := t.log)
      && (t.loops == [Settled] || (t.loops == [Waiting(s.queue[0])] && (s.queue[0].Media? ==> s.queue[0].payload != [])))
      && (s.activeMark.None? ==> t.activeMark == WaitingMark(t.loops))
      && (HeadEntry(s).Refused? <==> t.loops == [Settled])
  {
    var item := s.queue[0];
    assert s.loops[0 := Settled] == [Settled] && s.loops[0 := Waiting(item)] == [Waiting(item)];
  }

  /** The first item of the queue has begun or been refused; nothing else has changed. */
  lemma TakenAgrees(s: State, t: State, h: History, r: History, serial: nat)
    requires Agrees(s, h) && s.loops == [Running] && !s.cancelled && s.queue != [] && serial == s.queue[0].serial
    requires t == s.(queue := s.queue[1..], loops := t.loops, activeMark := WaitingMark(t.loops), log := t.log)
    requires r.items == h.items && |r.fates| == |h.fates| && serial < |h.fates|
    requires forall k :: 0 <= k < |h.fates| && k != serial ==> r.fates[k] == h.fates[k]
    requires if t.loops == [Settled] then r.fates[serial].phase.Rejected?
             else t.loops == [Waiting(s.queue[0])] && r.fates[serial].phase.Playing?
                  && (s.queue[0].Media? ==> s.queue[0].payload != [])
    ensures Agrees(t, r)
  {
    assert serial == s.arrivals - |s.queue| && s.queue[0] == h.items[serial];
    assert forall i :: 0 <= i < |t.queue| ==> t.queue[i] == s.queue[i + 1];
  }

  lemma HeadExtends(s: State, h: History)
    requires Agrees(s, h) && s.loops == [Running] && !s.cancelled && s.queue != []
    ensures Agrees(Head(s, 0), Extend(h, HeadEntry(s)))
  {
    var t, r, serial := Head(s, 0), Extend(h, HeadEntry(s)), s.queue[0].serial;
    assert serial == s.arrivals - |s.queue| && serial < |h.fates| && h.fates[serial].phase.Queued?;
    assert s.activeMark.None?;
    HeadShape(s);
    hide Agrees, Head;
    assert forall k :: 0 <= k < |h.fates| ==> r.fates[k] == Advance(h.fates[k], k, HeadEntry(s));
    TakenAgrees(s, t, h, r, serial);
  }

  lemma HeadAgrees(s: State)
    requires Agrees(s, HistoryOf(s.log)) && s.loops == [Running] && !s.cancelled
    ensures Agrees(Head(s, 0), HistoryOf(Head(s, 0).log))
    ensures |Head(s, 0).loops| == 1 && !Head(s, 0).loops[0].Running?
    ensures Head(s, 0).drainPromise == s.drainPromise
  {
    if s.queue != [] {
      HeadExtends(s, HistoryOf(s.log));
      HistorySnoc(s.log, HeadEntry(s));
    }
  }

  lemma LoopStarts(s: State, h: History)
    requires Agrees(s, h) && s.loops == []
    ensures Agrees(s.(loops := [Running]), h)
  {
  }

  lemma PromiseIsNoMatter(s: State, h: History)
    requires Agrees(s, h)
    ensures Agrees(s.(drainPromise := true), h)
  {
  }

  lemma StartDrainAgrees(s: State)
    requires Agrees(s, HistoryOf(s.log)) && !s.cancelled
    requires s.drainPromise <==> |s.loops| == 1
    requires |s.loops| == 1 ==> !s.loops[0].Running?
    ensures Inv(StartDrain(s))
  {
    hide HistoryOf;
    if !s.drainPromise {
      var t := s.(loops := [Running]);
      assert s.loops + [Running] == t.loops;
      LoopStarts(s, HistoryOf(s.log));
      HeadAgrees(t);
      var u := Head(t, 0);
      hide Head;
      PromiseIsNoMatter(u, HistoryOf(u.log));
      hide Agrees;
    }
  }

  lemma ClearAgrees(c: Config, s: State)
    requires Inv(s) && !s.cancelled
    ensures Inv(Clear(c, s))
  {
    HistorySnoc(s.log, ClearedAll);
    hide HistoryOf, Dedup, PendingMarks;
    ClearExtends(c, s, HistoryOf(s.log));
    assert Clear(c, s).log == s.log + [ClearedAll];
    hide Agrees;
  }

  lemma ClearExtends(c: Config, s: State, h: History)
    requires Agrees(s, h) && !s.cancelled
    ensures Agrees(Clear(c, s), Extend(h, ClearedAll))
  {
    hide Dedup, PendingMarks;
  }

  lemma CancelAgrees(s: State)
    requires Inv(s)
    ensures Inv(OnCancel(s))
  {
    if !s.cancelled {
      HistorySnoc(s.log, CancelledAll);
      CancelExtends(s, HistoryOf(s.log));
      hide HistoryOf, Agrees;
    }
  }

  lemma CancelExtends(s: State, h: History)
    requires Agrees(s, h) && !s.cancelled
    ensures Agrees(OnCancel(s), Extend(h, CancelledAll))
  {
  }

  lemma WaitExtends(c: Config, s: State, h: History)
    requires Agrees(s, h) && !s.cancelled && |s.loops| == 1 && s.loops[0].Waiting?
    ensures Agrees(AfterWait(c, s, 0), Extend(h, Ended(s.loops[0].item.serial)))
  {
    var serial := s.loops[0].item.serial;
    var t, r := AfterWait(c, s, 0), Extend(h, Ended(serial));
    assert t.loops == [Running];
    assert s.activeMark.Some? ==> s.activeMark == Some(s.loops[0].item);
    assert t == s.(loops := [Running], log := t.log, outboundFrameCount := t.outboundFrameCount,
                   fingerprintMatched := t.fingerprintMatched, acked := t.acked,
                   markAcknowledgements := t.markAcknowledgements, activeMark := None);
    hide AfterWait;
    assert r.items == h.items && |r.fates| == |h.fates|;
    assert forall k :: 0 <= k < s.arrivals ==> r.fates[k] == if k == serial then Advance(h.fates[k], k, Ended(serial)) else h.fates[k];
    hide Extend;
  }

  lemma ResumeAgrees(c: Config, s: State, i: nat)
    requires Inv(s) && Enabled(s, Resume(i))
    ensures Inv(OnResume(c, s, i))
  {
    if s.cancelled {
      assert s.loops[i := Settled] == [Settled];
    } else {
      var t := AfterWait(c, s, 0);
      WaitExtends(c, s, HistoryOf(s.log));
      HistorySnoc(s.log, Ended(s.loops[0].item.serial));
      assert t.loops == [Running];
      HeadAgrees(t);
    }
  }

  lemma FinallyAgrees(s: State, i: nat)
    requires Inv(s) && Enabled(s, RunFinally(i))
    ensures Inv(OnFinally(s, i))
  {
    var t := s.(loops := s.loops[..i] + s.loops[i + 1..], drainPromise := false);
    assert t.loops == [];
    if t.queue != [] {
      StartDrainAgrees(t);
    }
  }

  lemma StepAgrees(c: Config, s: State, e: Event)
    requires Inv(s) && Enabled(s, e)
    ensures Inv(Step(c, s, e))
  {
    match e
    case Receive(m) =>
      if !s.cancelled && !ReceiveOutcome(c, s, m).Threw? {
        if m.event.MediaEvent? && m.payload.Some? {
          var item := Media(s.arrivals, s.generation, m.payload.value);
          PushAgrees(s, item);
          StartDrainAgrees(Push(s, item));
        } else if m.event.MarkEvent? && m.markName.Some? {
          var item := Mark(s.arrivals, s.generation, m.markName.value);
          PushAgrees(s, item);
          StartDrainAgrees(Push(s, item));
        } else if m.event.ClearEvent? {
          ClearAgrees(c, s);
        }
      }
    case Cancel => CancelAgrees(s);
    case Resume(i) => ResumeAgrees(c, s, i);
    case RunFinally(i) => FinallyAgrees(s, i);
  }

  // ---------------------------------------------------------------- what a log promises the caller

  datatype Observed = Observed(clearCount: nat, outboundFrameCount: nat, fingerprintMatched: bool, acked: seq<string>)

  predicate Held(f: Fate) {
    f.phase.Queued? || Live(f.phase)
  }

  /** Names of the first `n` items that are held marks, in arrival order. */
  function HeldNames(h: History, n: nat): seq<string>
    requires n <= |h.items| == |h.fates|
  {
    if n == 0 then []
    else HeldNames(h, n - 1)
         + if h.items[n - 1].Mark? && Held(h.fates[n - 1]) then [h.items[n - 1].name] else []
  }

  /** The effect an entry must have, given only the fates of the items before it: an uninterrupted wait counts a frame
    or acknowledges a mark, and a `clear` acknowledges every held mark once. */
  function Observe(c: Config, o: Observed, h: History, e: Entry): Observed
    requires |h.items| == |h.fates|
  {
    match e
    case Ended(k) =>
      if k >= |h.items| || !h.fates[k].phase.Playing? then o
      else if h.items[k].Media? then
        o.(outboundFrameCount := o.outboundFrameCount + 1,
           fingerprintMatched := o.fingerprintMatched && VerifyCallFingerprint(h.items[k].payload, c.fingerprint))
      else if c.loseMarks then o
      else o.(acked := o.acked + [h.items[k].name])
    case ClearedAll =>
      o.(clearCount := o.clearCount + 1,
         acked := if c.loseMarks then o.acked else o.acked + Dedup(HeldNames(h, |h.items|)))
    case _ => o
  }

  function ObservedOf(c: Config, log: seq<Entry>): Observed {
    if log == [] then Observed(0, 0, true, [])
    else
      var before := log[..|log| - 1];
      Observe(c, ObservedOf(c, before), HistoryOf(before), log[|log| - 1])
  }

  lemma ObservedSnoc(c: Config, log: seq<Entry>, e: Entry)
    ensures ObservedOf(c, log + [e]) == Observe(c, ObservedOf(c, log), HistoryOf(log), e)
  {
  }

  ghost predicate Faithful(c: Config, s: State) {
    && Observed(s.clearCount, s.outboundFrameCount, s.fingerprintMatched, s.acked) == ObservedOf(c, s.log)
    && s.markAcknowledgements == |s.acked|
  }

  /** Of the items before the queue only the active mark is held; the queue's are all held. */
  lemma HeldOrNot(s: State, h: History, k: nat)
    requires Agrees(s, h) && !s.cancelled && k < s.arrivals
    ensures k < s.arrivals - |s.queue| && h.items[k].Mark? ==>
      (Held(h.fates[k]) <==> s.activeMark == Some(h.items[k]))
    ensures k >= s.arrivals - |s.queue| ==> Held(h.fates[k]) && h.items[k] == s.queue[k - (s.arrivals - |s.queue|)]
    ensures s.activeMark.Some? ==>
      s.activeMark.value.serial < s.arrivals - |s.queue|
      && h.items[s.activeMark.value.serial] == s.activeMark.value && s.activeMark.value.Mark?
  {
  }

  lemma QueueNames(queue: seq<Item>, n: nat)
    requires 0 < n <= |queue|
    ensures MarkNames(queue[..n]) == MarkNames(queue[..n - 1]) + if queue[n - 1].Mark? then [queue[n - 1].name] else []
  {
    assert queue[..n][..n - 1] == queue[..n - 1];
  }

  /** The name of the active mark, if it is among the first `n` items. */
  function ActiveName(s: State, n: nat): seq<string> {
    if s.activeMark.Some? && s.activeMark.value.serial < n then MarkNames([s.activeMark.value]) else []
  }

  lemma {:induction false} HeldBeforeQueue(s: State, h: History, n: nat)
    requires Agrees(s, h) && !s.cancelled && n <= s.arrivals - |s.queue|
    ensures HeldNames(h, n) == ActiveName(s, n)
  {
    if n > 0 {
      HeldOrNot(s, h, n - 1);
      assert h.items[n - 1].serial == n - 1;
      HeldBeforeQueue(s, h, n - 1);
      assert |h.items| == |h.fates| == s.arrivals;
      hide HistoryOf, Agrees;
      var item := h.items[n - 1];
      assert [item][..0] == [] && (item.Mark? ==> MarkNames([item]) == [item.name]);
      if item.Mark? && Held(h.fates[n - 1]) {
        assert ActiveName(s, n - 1) == [] && ActiveName(s, n) == [item.name];
      } else {
        assert ActiveName(s, n - 1) == ActiveName(s, n);
      }
    }
  }

  /** The marks `clear` finds are exactly the held ones, the active one first. */
  lemma {:induction false} HeldUpTo(s: State, h: History, n: nat)
    requires Agrees(s, h) && !s.cancelled && s.arrivals - |s.queue| <= n <= s.arrivals
    ensures HeldNames(h, n) == ActiveName(s, s.arrivals) + MarkNames(s.queue[..n - (s.arrivals - |s.queue|)])
  {
    var began := s.arrivals - |s.queue|;
    if n == began {
      HeldBeforeQueue(s, h, n);
      assert s.activeMark.Some? ==> s.activeMark.value.serial < began;
      hide Agrees, HistoryOf;
    } else {
      HeldOrNot(s, h, n - 1);
      HeldUpTo(s, h, n - 1);
      hide Agrees, HistoryOf, ActiveName;
      QueueNames(s.queue, n - began);
    }
  }

  lemma PendingAreHeld(s: State, h: History)
    requires Agrees(s, h) && !s.cancelled
    ensures PendingMarks(s) == HeldNames(h, |h.items|)
  {
    HeldUpTo(s, h, s.arrivals);
    assert s.queue[..s.arrivals - (s.arrivals - |s.queue|)] == s.queue && |h.items| == s.arrivals;
    assert s.activeMark.Some? ==> s.activeMark.value.Mark? && s.activeMark.value.serial < s.arrivals;
    hide Agrees;
    if s.activeMark.Some? {
      var mark := s.activeMark.value;
      assert [mark][..0] == [] && MarkNames([mark]) == [mark.name];
    }
  }

  lemma HeadFaithful(c: Config, s: State, i: nat)
    requires Faithful(c, s) && i < |s.loops|
    ensures Faithful(c, Head(s, i))
  {
    if s.queue != [] {
      ObservedSnoc(c, s.log, HeadEntry(s));
    }
  }

  lemma PushFaithful(c: Config, s: State, item: Item)
    requires Faithful(c, s)
    ensures Faithful(c, StartDrain(Push(s, item)))
  {
    var t := Push(s, item);
    ObservedSnoc(c, s.log, Arrived(item));
    assert Faithful(c, t) by { hide ObservedOf; }
    if !t.drainPromise {
      hide ObservedOf, Head;
      HeadFaithful(c, t.(loops := t.loops + [Running]), |t.loops|);
    }
  }

  lemma ClearFaithful(c: Config, s: State)
    requires Inv(s) && Faithful(c, s) && !s.cancelled
    ensures Faithful(c, Clear(c, s))
  {
    var h := HistoryOf(s.log);
    assert Agrees(s, h) && |h.items| == |h.fates|;
    hide Inv, Agrees, Settledness, HistoryOf, ObservedOf, Dedup, HeldNames, PendingMarks;
    ObservedSnoc(c, s.log, ClearedAll);
    PendingAreHeld(s, h);
    ClearShape(c, s);
    hide Clear;
  }

  lemma ClearShape(c: Config, s: State)
    requires !s.cancelled
    ensures var t := Clear(c, s); var acked := if c.loseMarks then s.acked else s.acked + Dedup(PendingMarks(s));
      && t.clearCount == s.clearCount + 1 && t.outboundFrameCount == s.outboundFrameCount
      && t.fingerprintMatched == s.fingerprintMatched && t.acked == acked && t.log == s.log + [ClearedAll]
      && t.markAcknowledgements == s.markAcknowledgements + |acked| - |s.acked|
  {
    hide Dedup, PendingMarks;
  }

  lemma WaitFaithful(c: Config, s: State, i: nat)
    requires Inv(s) && Faithful(c, s) && Enabled(s, Resume(i)) && !s.cancelled
    ensures Faithful(c, AfterWait(c, s, i))
  {
    ObservedSnoc(c, s.log, Ended(s.loops[i].item.serial));
    assert WaitAgrees(s, HistoryOf(s.log), s.loops[i].item) && s.loops[i].item.serial < |HistoryOf(s.log).items|;
    hide ObservedOf, HistoryOf, Agrees;
  }

  lemma ReceiveFaithful(c: Config, s: State, m: Message)
    requires Inv(s) && Faithful(c, s)
    ensures Faithful(c, OnReceive(c, s, m))
  {
    hide Inv, Faithful, StartDrain, Push, Clear;
    if !s.cancelled && !ReceiveOutcome(c, s, m).Threw? {
      if m.event.MediaEvent? && m.payload.Some? {
        PushFaithful(c, s, Media(s.arrivals, s.generation, m.payload.value));
      } else if m.event.MarkEvent? && m.markName.Some? {
        PushFaithful(c, s, Mark(s.arrivals, s.generation, m.markName.value));
      } else if m.event.ClearEvent? {
        ClearFaithful(c, s);
      }
    }
  }

  lemma ResumeFaithful(c: Config, s: State, i: nat)
    requires Inv(s) && Faithful(c, s) && Enabled(s, Resume(i))
    ensures Faithful(c, OnResume(c, s, i))
  {
    if s.cancelled {
      hide ObservedOf, Inv;
    } else {
      WaitFaithful(c, s, i);
      assert |AfterWait(c, s, i).loops| == |s.loops|;
      hide Faithful, Inv, AfterWait, Head;
      HeadFaithful(c, AfterWait(c, s, i), i);
    }
  }

  lemma RestartFaithful(c: Config, s: State, i: nat)
    requires Faithful(c, s) && i < |s.loops|
    ensures Faithful(c, OnFinally(s, i))
  {
    var t := s.(loops := s.loops[..i] + s.loops[i + 1..], drainPromise := false);
    hide ObservedOf, Head;
    assert Faithful(c, t);
    if t.queue != [] {
      HeadFaithful(c, t.(loops := t.loops + [Running]), |t.loops|);
    }
  }

  lemma StepFaithful(c: Config, s: State, e: Event)
    requires Inv(s) && Faithful(c, s) && Enabled(s, e)
    ensures Faithful(c, Step(c, s, e))
  {
    match e
    case Receive(m) => ReceiveFaithful(c, s, m); hide Faithful, Inv, OnReceive;
    case Cancel => ObservedSnoc(c, s.log, CancelledAll); hide ObservedOf, Inv;
    case Resume(i) => ResumeFaithful(c, s, i); hide Faithful, Inv, OnResume;
    case RunFinally(i) => RestartFaithful(c, s, i); hide Faithful, Inv, OnFinally;
  }

  /** In every run the caller sees exactly what the log promises. */
  lemma {:induction false} RunFaithful(c: Config, events: seq<Event>)
    requires Run(c, events).Some?
    ensures Inv(Run(c, events).value) && Faithful(c, Run(c, events).value)
  {
    if events != [] {
      var before := events[..|events| - 1];
      RunFaithful(c, before);
      StepAgrees(c, Run(c, before).value, events[|events| - 1]);
      StepFaithful(c, Run(c, before).value, events[|events| - 1]);
    } else {
      AgreesInitially();
    }
  }
}
