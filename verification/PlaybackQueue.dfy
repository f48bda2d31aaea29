/** The class of twilio-virtual-caller.ts, each method one atomic step, proved against the state machine. */
module PlaybackQueue {
  import opened Options
  import opened TwilioProtocol
  import opened PlaybackModel

  class TwilioPlaybackQueue {
    const config: Config
    var queue: seq<Item>
    var generation: nat
    var drainPromise: bool
    var loops: seq<Loop>
    var activeMark: Option<Item>
    var cancelled: bool
    var clearCount: nat
    var outboundFrameCount: nat
    var outboundFingerprintMatched: bool
    var markAcknowledgements: nat
    var acked: seq<string>
    var arrivals: nat
    ghost var log: seq<Entry>

    ghost function Model(): State
      reads this
    {
      State(queue, generation, drainPromise, loops, activeMark, cancelled, clearCount, outboundFrameCount,
            outboundFingerprintMatched, markAcknowledgements, acked, arrivals, log)
    }

    constructor (config: Config)
      ensures this.config == config && Model() == Initial()
    {
      this.config := config;
      queue, generation, drainPromise, loops, activeMark := [], 0, false, [], None;
      cancelled, clearCount, outboundFrameCount, outboundFingerprintMatched := false, 0, 0, true;
      markAcknowledgements, acked, arrivals, log := 0, [], 0, [];
    }

    method Receive(message: Message) returns (outcome: Outcome)
      modifies this
      ensures outcome == ReceiveOutcome(config, old(Model()), message)
      ensures Model() == Step(config, old(Model()), Event.Receive(message))
    {
      if cancelled {
        return Returned(false);
      }
      if message.Unparsable? {
        return Threw;
      }
      if (message.event.MediaEvent? || message.event.MarkEvent? || message.event.ClearEvent?)
         && message.streamSid != config.streamSid {
        return Threw;
      }
      if message.event.MediaEvent? && message.payload.Some? {
        Enqueue(Media(arrivals, generation, message.payload.value));
        StartDrainLoop();
        return Returned(true);
      }
      if message.event.MarkEvent? && message.markName.Some? {
        Enqueue(Mark(arrivals, generation, message.markName.value));
        StartDrainLoop();
        return Returned(false);
      }
      if message.event.ClearEvent? {
        ClearQueue();
      }
      return Returned(false);
    }

    method Enqueue(item: Item)
      modifies this
      ensures Model() == Push(old(Model()), item)
    {
      queue := queue + [item];
      arrivals := arrivals + 1;
      log := log + [Arrived(item)];
    }

    method CancelPlayback()
      modifies this
      ensures Model() == Step(config, old(Model()), Event.Cancel)
    {
      if cancelled {
        return;
      }
      cancelled := true;
      generation := generation + 1;
      queue := [];
      activeMark := None;
      log := log + [CancelledAll];
    }

    method ClearQueue()
      modifies this
      ensures Model() == Clear(config, old(Model()))
    {
      clearCount := clearCount + 1;
      var pendingMarks := MarkNames(queue);
      if activeMark.Some? && activeMark.value.Mark? {
        pendingMarks := [activeMark.value.name] + pendingMarks;
      }
      assert pendingMarks == PendingMarks(old(Model()));
      hide PendingMarks, MarkNames, Dedup;
      generation := generation + 1;
      queue := [];
      log := log + [ClearedAll];
      if !config.loseMarks {
        AcknowledgeAll(Dedup(pendingMarks));
      }
    }

    method AcknowledgeAll(names: seq<string>)
      modifies this`acked, this`markAcknowledgements
      ensures Model() == Acknowledge(old(Model()), names)
    {
      for k := 0 to |names|
        invariant Model() == Acknowledge(old(Model()), names[..k])
      {
        AcknowledgeMark(names[k]);
        assert names[..k] + [names[k]] == names[..k + 1];
        assert (old(acked) + names[..k]) + [names[k]] == old(acked) + names[..k + 1];
      }
      assert names[..|names|] == names;
    }

    method AcknowledgeMark(name: string)
      modifies this`acked, this`markAcknowledgements
      ensures Model() == Acknowledge(old(Model()), [name])
    {
      if cancelled {
        return;
      }
      acked := acked + [name];
      markAcknowledgements := markAcknowledgements + 1;
    }

    method StartDrainLoop()
      modifies this
      ensures Model() == StartDrain(old(Model()))
    {
      if drainPromise {
        return;
      }
      loops := loops + [Running];
      DrainFromHead(|loops| - 1);
      drainPromise := true;
    }

    method DrainFromHead(i: nat)
      requires i < |loops|
      modifies this
      ensures Model() == Head(old(Model()), i)
    {
      if |queue| == 0 {
        loops := loops[i := Settled];
        return;
      }
      var item := queue[0];
      queue := queue[1..];
      if item.Media? && |item.payload| == 0 {
        log := log + [Refused(item.serial)];
        loops := loops[i := Settled];
      } else {
        if item.Mark? {
          activeMark := Some(item);
        }
        log := log + [Began(item.serial)];
        loops := loops[i := Waiting(item)];
      }
    }

    /** The loop continues: its wait ended or was cut short by `cancel`. */
    method ResumeDrain(i: nat)
      requires Enabled(Model(), Resume(i))
      modifies this
      ensures Model() == Step(config, old(Model()), Resume(i))
    {
      if cancelled {
        loops := loops[i := Settled];
        return;
      }
      FinishWait(i);
      DrainFromHead(i);
    }

    /** What follows the wait: the item is counted or acknowledged if nothing has superseded it. */
    method FinishWait(i: nat)
      requires i < |loops| && loops[i].Waiting?
      modifies this
      ensures Model() == AfterWait(config, old(Model()), i)
    {
      var item := loops[i].item;
      log := log + [Ended(item.serial)];
      loops := loops[i := Running];
      if item.Media? {
        if item.generation == generation {
          outboundFrameCount := outboundFrameCount + 1;
          outboundFingerprintMatched :=
            outboundFingerprintMatched && VerifyCallFingerprint(item.payload, config.fingerprint);
        }
        return;
      }
      if item.generation == generation && !config.loseMarks {
        AcknowledgeMark(item.name);
      }
      if activeMark == Some(item) {
        activeMark := None;
      }
    }

    method FinishDrain(i: nat)
      requires Enabled(Model(), RunFinally(i))
      modifies this
      ensures Model() == Step(config, old(Model()), RunFinally(i))
    {
      loops := loops[..i] + loops[i + 1..];
      drainPromise := false;
      if |queue| > 0 {
        StartDrainLoop();
      }
    }
  }
}
