/** One call of TwilioVirtualCaller.run after its bootstrap: an object that owns the playback queue, the shared
  sequence counter and the media sender's position, each method one atomic step. */
module CallerSession {
  import opened Options
  import opened TwilioProtocol
  import Playback = PlaybackModel
  import opened PlaybackQueue
  import opened CallerWire

  class TwilioCallSession {
    const config: Config
    const playback: TwilioPlaybackQueue
    var nextSequenceNumber: nat
    var inboundFrameCount: nat
    var mediaTimestampMs: real
    var outboundFrameCountAfterTurns: seq<nat>
    var lifecycleError: bool
    var aborted: bool
    var sender: Sender
    var sent: seq<CallerWire.Frame>

    ghost predicate Valid()
      reads this, playback
    {
      playback.config == config.playback
    }

    ghost function Model(): State
      reads this, playback
    {
      State(playback.Model(), nextSequenceNumber, inboundFrameCount, mediaTimestampMs, outboundFrameCountAfterTurns,
            lifecycleError, aborted, sender, sent)
    }

    constructor (config: Config)
      ensures Valid() && fresh(playback) && this.config == config && Model() == Initial()
    {
      this.config := config;
      playback := new TwilioPlaybackQueue(config.playback);
      nextSequenceNumber, inboundFrameCount, mediaTimestampMs, outboundFrameCountAfterTurns := 2, 0, 0.0, [];
      lifecycleError, aborted, sender := false, false, Streaming(0, 0);
      sent := [Connected, Start(1)];
    }

    method AllocateSequenceNumber() returns (number: nat)
      modifies this`nextSequenceNumber
      ensures number == old(nextSequenceNumber) && nextSequenceNumber == number + 1
    {
      number := nextSequenceNumber;
      nextSequenceNumber := nextSequenceNumber + 1;
    }

    /** The acknowledgements of one step of the queue, each with the next number. */
    method SendAcknowledgements(names: seq<string>)
      modifies this`nextSequenceNumber, this`sent
      ensures nextSequenceNumber == old(nextSequenceNumber) + |names|
      ensures sent == old(sent) + MarkFrames(names, old(nextSequenceNumber))
    {
      for k := 0 to |names|
        invariant nextSequenceNumber == old(nextSequenceNumber) + k
        invariant sent == old(sent) + MarkFrames(names[..k], old(nextSequenceNumber))
      {
        var number := AllocateSequenceNumber();
        sent := sent + [MarkFrame(number, names[k])];
        assert MarkFrames(names[..k + 1], old(nextSequenceNumber))
            == MarkFrames(names[..k], old(nextSequenceNumber)) + [MarkFrame(number, names[k])];
      }
      assert names[..|names|] == names;
    }

    method ReceiveProviderMessage(message: Playback.Message)
      requires Valid()
      modifies this, playback
      ensures Valid() && Model() == Step(config, old(Model()), Play(Playback.Receive(message)))
    {
      AckedGrows(config.playback, playback.Model(), Playback.Receive(message));
      var acknowledged := |playback.acked|;
      var outcome := playback.Receive(message);
      SendAcknowledgements(playback.acked[acknowledged..]);
      if outcome.Threw? {
        lifecycleError := true;
      }
    }

    method OnSocketClosed()
      requires Valid()
      modifies this, playback
      ensures Valid() && Model() == Step(config, old(Model()), Play(Playback.Cancel))
    {
      playback.CancelPlayback();
      assert MarkFrames([], nextSequenceNumber) == [] && playback.acked[|playback.acked|..] == [];
    }

    method ResumePlayback(loop: nat)
      requires Valid() && Enabled(Model(), Play(Playback.Resume(loop)))
      modifies this, playback
      ensures Valid() && Model() == Step(config, old(Model()), Play(Playback.Resume(loop)))
    {
      AckedGrows(config.playback, playback.Model(), Playback.Resume(loop));
      var acknowledged := |playback.acked|;
      playback.ResumeDrain(loop);
      SendAcknowledgements(playback.acked[acknowledged..]);
    }

    method FinishPlayback(loop: nat)
      requires Valid() && Enabled(Model(), Play(Playback.RunFinally(loop)))
      modifies this, playback
      ensures Valid() && Model() == Step(config, old(Model()), Play(Playback.RunFinally(loop)))
    {
      AckedGrows(config.playback, playback.Model(), Playback.RunFinally(loop));
      var acknowledged := |playback.acked|;
      playback.FinishDrain(loop);
      SendAcknowledgements(playback.acked[acknowledged..]);
    }

    method OnSocketError()
      requires Valid()
      modifies this`lifecycleError
      ensures Valid() && Model() == Step(config, old(Model()), SocketFails)
    {
      lifecycleError := true;
    }

    method OnAbort()
      requires Valid()
      modifies this`aborted
      ensures Valid() && Model() == Step(config, old(Model()), Abort)
    {
      aborted := true;
    }

    /** No quiet came: the wait throws. */
    method OnQuiescenceTimeout()
      requires Valid() && sender.Quiescing?
      modifies this`sender
      ensures Valid() && Model() == Step(config, old(Model()), TimesOut)
    {
      sender := Failed;
    }

    method ResumeMediaSender()
      requires Valid() && Enabled(Model(), ResumeSender)
      modifies this
      ensures Valid() && Model() == Step(config, old(Model()), ResumeSender)
    {
      if aborted && Wakes(sender) {
        sender := Failed;
        return;
      }
      match sender {
        case Streaming(turn, frame) => StreamTurn(turn, frame);
        case Pausing(turn) => FinishTurn(turn);
        case Quiescing => sender := if lifecycleError then Failed else Idling;
        case Idling =>
          if lifecycleError {
            sender := Failed;
            return;
          }
          if !config.abruptDisconnect && !playback.cancelled {
            var number := AllocateSequenceNumber();
            sent := sent + [Stop(number)];
          }
          sender := Finished;
        case _ =>
      }
    }

    /** The next frame of the turn, or the turn's end. */
    method StreamTurn(turn: nat, frame: nat)
      requires Valid() && sender == Streaming(turn, frame)
      modifies this
      ensures Valid() && Model() == GoOn(config, old(Model()))
    {
      if turn >= |Spoken(config)| || playback.cancelled {
        sender := Quiescing;
      } else if frame < FrameCount(Spoken(config)[turn].durationMs) {
        if lifecycleError {
          sender := Failed;
        } else {
          SendMediaFrame(frame);
          sender := Streaming(turn, frame + 1);
        }
      } else {
        mediaTimestampMs := mediaTimestampMs + (20 * frame) as real;
        var silenceAfterMs := Silence(Spoken(config)[turn]);
        if silenceAfterMs > 0.0 {
          mediaTimestampMs := mediaTimestampMs + silenceAfterMs;
          sender := Pausing(turn);
        } else {
          FinishTurn(turn);
        }
      }
    }

    method SendMediaFrame(frame: nat)
      modifies this`sent, this`nextSequenceNumber, this`inboundFrameCount
      ensures nextSequenceNumber == old(nextSequenceNumber) + 1 && inboundFrameCount == old(inboundFrameCount) + 1
      ensures sent == old(sent)
        + [MediaFrame(old(nextSequenceNumber), inboundFrameCount, mediaTimestampMs + (20 * frame) as real)]
    {
      var number := AllocateSequenceNumber();
      sent := sent + [MediaFrame(number, inboundFrameCount + 1, mediaTimestampMs + (20 * frame) as real)];
      inboundFrameCount := inboundFrameCount + 1;
    }

    method FinishTurn(turn: nat)
      modifies this`sender, this`outboundFrameCountAfterTurns
      ensures sender == Streaming(turn + 1, 0)
      ensures outboundFrameCountAfterTurns == old(outboundFrameCountAfterTurns) + [playback.outboundFrameCount]
    {
      outboundFrameCountAfterTurns := outboundFrameCountAfterTurns + [playback.outboundFrameCount];
      sender := Streaming(turn + 1, 0);
    }
  }
}
