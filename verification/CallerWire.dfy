/** The sending side of TwilioVirtualCaller.run: the media sender and the playback queue's acknowledgements interleave
  on one socket and share one sequence counter. Sending never fails in this model. */
module CallerWire {
  import opened Options
  import TwilioProtocol
  import Playback = PlaybackModel

  datatype Frame =
    | Connected
    | Start(sequence: nat)
    | MediaFrame(sequence: nat, chunk: nat, timestamp: real)
    | MarkFrame(sequence: nat, name: string)
    | Stop(sequence: nat)

  datatype Turn = Turn(durationMs: real, silenceAfterMs: Option<real>)

  datatype Config = Config(playback: Playback.Config, silence: bool, turns: seq<Turn>, abruptDisconnect: bool)

  /** Where `run` is: before frame `frame` of turn `turn`, in the silence after a turn, waiting for the provider to be
    quiet, or waiting for the playback queue to be idle. */
  datatype Sender =
    | Streaming(turn: nat, frame: nat)
    | Pausing(turn: nat)
    | Quiescing
    | Idling
    | Finished
    | Failed

  datatype State = State(
    playback: Playback.State,
    nextSequenceNumber: nat,
    inboundFrameCount: nat,
    mediaTimestampMs: real,
    outboundFrameCountAfterTurns: seq<nat>,
    lifecycleError: bool,
    aborted: bool,
    sender: Sender,
    sent: seq<Frame>)

  /** `SocketFails` is the socket's error event, `Abort` the caller's signal, `TimesOut` the end of the wait for quiet. */
  datatype Event = Play(event: Playback.Event) | ResumeSender | SocketFails | Abort | TimesOut

  /** A silent caller has no turns: it sleeps for its duration. */
  function Spoken(c: Config): seq<Turn> {
    if c.silence then [] else c.turns
  }

  /** After the bootstrap: in the simultaneous race it was sent while the race ran, otherwise just now. */
  function Initial(): State {
    State(Playback.Initial(), 2, 0, 0.0, [], false, false, Streaming(0, 0), [Connected, Start(1)])
  }

  function MarkFrames(names: seq<string>, first: nat): seq<Frame> {
    seq(|names|, k requires 0 <= k < |names| => MarkFrame(first + k, names[k]))
  }

  function OnPlay(c: Config, s: State, e: Playback.Event): State
    requires Playback.Enabled(s.playback, e)
  {
    var p := Playback.Step(c.playback, s.playback, e);
    var names := if |s.playback.acked| <= |p.acked| then p.acked[|s.playback.acked|..] else [];
    var threw := e.Receive? && Playback.ReceiveOutcome(c.playback, s.playback, e.message).Threw?;
    s.(playback := p, sent := s.sent + MarkFrames(names, s.nextSequenceNumber),
       nextSequenceNumber := s.nextSequenceNumber + |names|, lifecycleError := s.lifecycleError || threw)
  }

  function Silence(turn: Turn): real {
    if turn.silenceAfterMs.Some? && turn.silenceAfterMs.value > 0.0 then turn.silenceAfterMs.value else 0.0
  }

  function EndTurn(s: State, turn: nat): State {
    s.(outboundFrameCountAfterTurns := s.outboundFrameCountAfterTurns + [s.playback.outboundFrameCount],
       sender := Streaming(turn + 1, 0))
  }

  /** The sender comes out of a sleep, which throws when the signal is aborted. The end of a turn without silence, and the
    way from a pause to the next turn's first frame, are no sleeps. */
  predicate Wakes(sender: Sender) {
    match sender
    case Streaming(turn, frame) => turn == 0 || frame > 0
    case Pausing(_) => true
    case Quiescing => true
    case _ => false
  }

  function OnResume(c: Config, s: State): State {
    if s.aborted && Wakes(s.sender) then s.(sender := Failed) else GoOn(c, s)
  }

  function GoOn(c: Config, s: State): State {
    match s.sender
    case Streaming(turn, frame) =>
      if turn >= |Spoken(c)| then s.(sender := Quiescing)
      else if s.playback.cancelled then s.(sender := Quiescing)
      else if frame < TwilioProtocol.FrameCount(Spoken(c)[turn].durationMs) then
        if s.lifecycleError then s.(sender := Failed)
        else
          s.(sent := s.sent + [MediaFrame(s.nextSequenceNumber, s.inboundFrameCount + 1,
                                          s.mediaTimestampMs + (20 * frame) as real)],
             nextSequenceNumber := s.nextSequenceNumber + 1, inboundFrameCount := s.inboundFrameCount + 1,
             sender := Streaming(turn, frame + 1))
      else
        var silence := Silence(Spoken(c)[turn]);
        var t := s.(mediaTimestampMs := s.mediaTimestampMs + (20 * frame) as real + silence);
        if silence > 0.0 then t.(sender := Pausing(turn)) else EndTurn(t, turn)
    case Pausing(turn) => EndTurn(s, turn)
    case Quiescing => s.(sender := if s.lifecycleError then Failed else Idling)
    case Idling =>
      if s.lifecycleError then s.(sender := Failed)
      else if c.abruptDisconnect || s.playback.cancelled then s.(sender := Finished)
      else s.(sent := s.sent + [Stop(s.nextSequenceNumber)], nextSequenceNumber := s.nextSequenceNumber + 1,
              sender := Finished)
    case _ => s
  }

  /** The sender ends only once the playback queue is idle. */
  predicate Enabled(s: State, e: Event) {
    match e
    case Play(p) => Playback.Enabled(s.playback, p)
    case ResumeSender =>
      (match s.sender
       case Idling => !s.playback.drainPromise
       case Finished => false
       case Failed => false
       case _ => true)
    case TimesOut => s.sender.Quiescing?
    case _ => true
  }

  function Step(c: Config, s: State, e: Event): State
    requires Enabled(s, e)
  {
    match e
    case Play(p) => OnPlay(c, s, p)
    case ResumeSender => OnResume(c, s)
    case SocketFails => s.(lifecycleError := true)
    case Abort => s.(aborted := true)
    case TimesOut => s.(sender := Failed)
  }

  function Run(c: Config, events: seq<Event>): Option<State> {
    if events == [] then Some(Initial())
    else
      match Run(c, events[..|events| - 1])
      case None => None
      case Some(s) => if Enabled(s, events[|events| - 1]) then Some(Step(c, s, events[|events| - 1])) else None
  }

  // ---------------------------------------------------------------- the timestamps a caller should produce

  /** Duration of the first `t` turns: 20 ms a frame, and the silence after each. */
  function Base(turns: seq<Turn>, t: nat): real
    requires t <= |turns|
  {
    if t == 0 then 0.0
    else Base(turns, t - 1) + (20 * TwilioProtocol.FrameCount(turns[t - 1].durationMs)) as real + Silence(turns[t - 1])
  }

  function TurnTimestamps(base: real, count: nat): seq<real> {
    seq(count, i requires 0 <= i < count => base + (20 * i) as real)
  }

  /** The timestamps of every frame of the first `t` turns. */
  function Planned(turns: seq<Turn>, t: nat): seq<real>
    requires t <= |turns|
  {
    if t == 0 then []
    else
      Planned(turns, t - 1)
      + TurnTimestamps(Base(turns, t - 1), TwilioProtocol.FrameCount(turns[t - 1].durationMs))
  }

  function TotalSilence(turns: seq<Turn>, t: nat): real
    requires t <= |turns|
  {
    if t == 0 then 0.0 else TotalSilence(turns, t - 1) + Silence(turns[t - 1])
  }

  /** The turn that frame `k` of the first `t` turns belongs to. */
  function TurnOf(turns: seq<Turn>, t: nat, k: nat): (turn: nat)
    requires t <= |turns| && k < |Planned(turns, t)|
    ensures turn < t
  {
    if k >= |Planned(turns, t - 1)| then t - 1 else TurnOf(turns, t - 1, k)
  }

  lemma {:induction false} BaseIsFramesAndSilence(turns: seq<Turn>, t: nat)
    requires t <= |turns|
    ensures Base(turns, t) == (20 * |Planned(turns, t)|) as real + TotalSilence(turns, t)
  {
    if t > 0 {
      BaseIsFramesAndSilence(turns, t - 1);
    }
  }

  /** Frame `k` is stamped 20 ms for each frame before it plus all the silence of the turns before its own. */
  lemma {:induction false} PlannedClosedForm(turns: seq<Turn>, t: nat, k: nat)
    requires t <= |turns| && k < |Planned(turns, t)|
    ensures Planned(turns, t)[k] == (20 * k) as real + TotalSilence(turns, TurnOf(turns, t, k))
  {
    if k >= |Planned(turns, t - 1)| {
      BaseIsFramesAndSilence(turns, t - 1);
    } else {
      PlannedClosedForm(turns, t - 1, k);
    }
  }

  lemma {:induction false} SilenceGrows(turns: seq<Turn>, t: nat, u: nat)
    requires t <= u <= |turns|
    ensures TotalSilence(turns, t) <= TotalSilence(turns, u)
  {
    if t < u {
      SilenceGrows(turns, t, u - 1);
    }
  }

  lemma {:induction false} TurnsInOrder(turns: seq<Turn>, t: nat, j: nat, k: nat)
    requires t <= |turns| && j <= k < |Planned(turns, t)|
    ensures TurnOf(turns, t, j) <= TurnOf(turns, t, k)
  {
    if k < |Planned(turns, t - 1)| {
      TurnsInOrder(turns, t - 1, j, k);
    }
  }

  lemma PlannedIncreases(turns: seq<Turn>, j: nat, k: nat)
    ensures var planned, n := Planned(turns, |turns|), |turns|;
      j < k < |planned| ==>
        && planned[k] - planned[j] ==
             (20 * (k - j)) as real + (TotalSilence(turns, TurnOf(turns, n, k)) - TotalSilence(turns, TurnOf(turns, n, j)))
        && planned[k] - planned[j] >= 20.0
  {
    if j < k < |Planned(turns, |turns|)| {
      PlannedClosedForm(turns, |turns|, j);
      PlannedClosedForm(turns, |turns|, k);
      TurnsInOrder(turns, |turns|, j, k);
      SilenceGrows(turns, TurnOf(turns, |turns|, j), TurnOf(turns, |turns|, k));
    }
  }

  // ---------------------------------------------------------------- what is on the wire

  function MediaOf(sent: seq<Frame>): seq<Frame> {
    if sent == [] then []
    else
      var last := sent[|sent| - 1];
      MediaOf(sent[..|sent| - 1]) + if last.MediaFrame? then [last] else []
  }

  function MarksOf(sent: seq<Frame>): seq<string> {
    if sent == [] then []
    else
      var last := sent[|sent| - 1];
      MarksOf(sent[..|sent| - 1]) + if last.MarkFrame? then [last.name] else []
  }

  lemma MediaOfSnoc(sent: seq<Frame>, f: Frame)
    ensures MediaOf(sent + [f]) == MediaOf(sent) + if f.MediaFrame? then [f] else []
    ensures MarksOf(sent + [f]) == MarksOf(sent) + if f.MarkFrame? then [f.name] else []
  {
  }

  lemma MarkFramesSnoc(names: seq<string>, name: string, first: nat)
    ensures MarkFrames(names + [name], first) == MarkFrames(names, first) + [MarkFrame(first + |names|, name)]
  {
  }

  lemma Appends<T>(a: seq<T>, b: seq<T>, x: T)
    ensures a + (b + [x]) == (a + b) + [x]
  {
  }

  lemma {:induction false} MarkFramesOnWire(sent: seq<Frame>, names: seq<string>, first: nat)
    ensures MediaOf(sent + MarkFrames(names, first)) == MediaOf(sent)
    ensures MarksOf(sent + MarkFrames(names, first)) == MarksOf(sent) + names
    decreases |names|
  {
    if names == [] {
      assert sent + MarkFrames(names, first) == sent;
    } else {
      var front, name := names[..|names| - 1], names[|names| - 1];
      assert names == front + [name];
      hide MediaOf, MarksOf, MarkFrames;
      MarkFramesOnWire(sent, front, first);
      MarkFramesSnoc(front, name, first);
      MediaOfSnoc(sent + MarkFrames(front, first), MarkFrame(first + |front|, name));
      Appends(sent, MarkFrames(front, first), MarkFrame(first + |front|, name));
      Appends(MarksOf(sent), front, name);
    }
  }

  predicate Numbered(sent: seq<Frame>, next: nat) {
    && next == |sent| > 0 && sent[0].Connected?
    && forall i :: 1 <= i < |sent| ==> !sent[i].Connected? && sent[i].sequence == i
  }

  /** Frames sent so far, as many as the plan allows at this point of the run. */
  ghost predicate OnSchedule(c: Config, s: State) {
    var media := MediaOf(s.sent);
    && |media| == s.inboundFrameCount
    && match s.sender
       case Streaming(turn, frame) =>
         && turn <= |Spoken(c)|
         && (turn == |Spoken(c)| ==> frame == 0)
         && (turn < |Spoken(c)| ==> frame <= TwilioProtocol.FrameCount(Spoken(c)[turn].durationMs))
         && s.mediaTimestampMs == Base(Spoken(c), turn)
         && Stamped(media, Planned(Spoken(c), turn) + TurnTimestamps(Base(Spoken(c), turn), frame))
       case Pausing(turn) =>
         && turn < |Spoken(c)|
         && s.mediaTimestampMs == Base(Spoken(c), turn + 1)
         && Stamped(media, Planned(Spoken(c), turn + 1))
       case _ => |media| <= |Planned(Spoken(c), |Spoken(c)|)| && Stamped(media, Planned(Spoken(c), |Spoken(c)|)[..|media|])
  }

  /** Chunks 1, 2, 3, ... with these timestamps. */
  predicate Stamped(media: seq<Frame>, stamps: seq<real>) {
    && |media| == |stamps|
    && forall k :: 0 <= k < |media| ==>
         media[k].MediaFrame? && media[k].chunk == k + 1 && media[k].timestamp == stamps[k]
  }

  ghost predicate Inv(c: Config, s: State) {
    && Numbered(s.sent, s.nextSequenceNumber)
    && MarksOf(s.sent) == s.playback.acked
    && OnSchedule(c, s)
  }

  lemma {:induction false} PlannedGrows(turns: seq<Turn>, t: nat, u: nat)
    requires t <= u <= |turns|
    ensures Planned(turns, t) <= Planned(turns, u)
  {
    if t < u {
      PlannedGrows(turns, t, u - 1);
    }
  }

  /** Starting or going on with the drain acknowledges nothing up to its next wait. */
  lemma DrainAcks()
    ensures forall s: Playback.State, i: nat :: i < |s.loops| ==> Playback.Head(s, i).acked == s.acked
    ensures forall s: Playback.State :: Playback.StartDrain(s).acked == s.acked
  {
  }

  lemma AckedGrows(c: Playback.Config, s: Playback.State, e: Playback.Event)
    requires Playback.Enabled(s, e)
    ensures s.acked <= Playback.Step(c, s, e).acked
  {
    DrainAcks();
    hide Playback.Dedup, Playback.PendingMarks, Playback.Head, Playback.StartDrain, TwilioProtocol.VerifyCallFingerprint;
  }

  lemma PlayKeepsInv(c: Config, s: State, e: Playback.Event)
    requires Inv(c, s) && Playback.Enabled(s.playback, e)
    ensures Inv(c, OnPlay(c, s, e))
  {
    AckedGrows(c.playback, s.playback, e);
    var p := Playback.Step(c.playback, s.playback, e);
    var names := p.acked[|s.playback.acked|..];
    MarkFramesOnWire(s.sent, names, s.nextSequenceNumber);
    assert s.playback.acked + names == p.acked;
  }

  /** Part of a turn is a part of the whole plan. */
  lemma PlanPrefix(turns: seq<Turn>, turn: nat, frame: nat)
    requires turn <= |turns|
    requires frame <= if turn < |turns| then TwilioProtocol.FrameCount(turns[turn].durationMs) else 0
    ensures Planned(turns, turn) + TurnTimestamps(Base(turns, turn), frame) <= Planned(turns, |turns|)
  {
    if turn < |turns| {
      PlannedGrows(turns, turn + 1, |turns|);
      assert TurnTimestamps(Base(turns, turn), frame)
          <= TurnTimestamps(Base(turns, turn), TwilioProtocol.FrameCount(turns[turn].durationMs));
    }
  }

  lemma FrameKeepsInv(c: Config, s: State)
    requires Inv(c, s) && s.sender.Streaming? && GoOn(c, s).sender == s.sender.(frame := s.sender.frame + 1)
    ensures Inv(c, GoOn(c, s))
  {
  }

  lemma TurnEndKeepsInv(c: Config, s: State)
    requires Inv(c, s) && s.sender.Streaming? && s.sender.turn < |Spoken(c)| && !s.playback.cancelled
    requires s.sender.frame == TwilioProtocol.FrameCount(Spoken(c)[s.sender.turn].durationMs)
    ensures Inv(c, GoOn(c, s))
  {
  }

  lemma StreamKeepsInv(c: Config, s: State)
    requires Inv(c, s) && s.sender.Streaming?
    ensures Inv(c, GoOn(c, s))
  {
    var turn, frame := s.sender.turn, s.sender.frame;
    PlanPrefix(Spoken(c), turn, frame);
    if turn < |Spoken(c)| && !s.playback.cancelled && !s.lifecycleError
       && frame < TwilioProtocol.FrameCount(Spoken(c)[turn].durationMs) {
      FrameKeepsInv(c, s);
    } else if turn < |Spoken(c)| && !s.playback.cancelled
              && frame == TwilioProtocol.FrameCount(Spoken(c)[turn].durationMs) {
      TurnEndKeepsInv(c, s);
    }
  }

  /** A sender that fails leaves the wire as it is. */
  lemma FailKeepsInv(c: Config, s: State)
    requires Inv(c, s)
    ensures Inv(c, s.(sender := Failed))
  {
    PlanCovers(c, s);
  }

  lemma OthersKeepInv(c: Config, s: State, e: Event)
    requires Inv(c, s) && Enabled(s, e) && !e.Play? && !e.ResumeSender?
    ensures Inv(c, Step(c, s, e))
  {
    FailKeepsInv(c, s);
  }

  lemma ResumeKeepsInv(c: Config, s: State)
    requires Inv(c, s)
    ensures Inv(c, OnResume(c, s))
  {
    FailKeepsInv(c, s);
    if !(s.aborted && Wakes(s.sender)) {
      GoOnKeepsInv(c, s);
    }
  }

  lemma PauseKeepsInv(c: Config, s: State)
    requires Inv(c, s) && s.sender.Pausing?
    ensures Inv(c, GoOn(c, s))
  {
    var turns, turn := Spoken(c), s.sender.turn;
    assert Planned(turns, turn + 1) + TurnTimestamps(Base(turns, turn + 1), 0) == Planned(turns, turn + 1);
    hide Planned, Base, MediaOf, MarksOf;
  }

  lemma EndKeepsInv(c: Config, s: State)
    requires Inv(c, s) && s.sender.Idling?
    ensures Inv(c, GoOn(c, s))
  {
    MediaOfSnoc(s.sent, Stop(s.nextSequenceNumber));
    hide MediaOf, MarksOf, Planned;
  }

  lemma GoOnKeepsInv(c: Config, s: State)
    requires Inv(c, s)
    ensures Inv(c, GoOn(c, s))
  {
    match s.sender
    case Streaming(_, _) => StreamKeepsInv(c, s);
    case Pausing(_) => PauseKeepsInv(c, s);
    case Idling => EndKeepsInv(c, s);
    case _ => hide MediaOf, MarksOf, Planned;
  }

  lemma {:induction false} RunKeepsInv(c: Config, events: seq<Event>)
    requires Run(c, events).Some?
    ensures Inv(c, Run(c, events).value)
  {
    if events == [] {
      var sent := Initial().sent;
      assert sent[..1] == [Connected] && [Connected][..0] == [];
      assert MediaOf([Connected]) == [] && MarksOf([Connected]) == [];
      assert Planned(Spoken(c), 0) + TurnTimestamps(0.0, 0) == [];
    } else {
      RunKeepsInv(c, events[..|events| - 1]);
      var s, e := Run(c, events[..|events| - 1]).value, events[|events| - 1];
      if e.Play? {
        PlayKeepsInv(c, s, e.event);
      } else if e.ResumeSender? {
        ResumeKeepsInv(c, s);
      } else {
        OthersKeepInv(c, s, e);
      }
    }
  }

  /** However the sender and the playback queue interleave, everything after `connected` is numbered 1, 2, 3, ... */
  lemma WireNumbersAreConsecutive(c: Config, events: seq<Event>)
    requires Run(c, events).Some?
    ensures var sent := Run(c, events).value.sent;
      && |sent| >= 2 && sent[0].Connected? && sent[1] == Start(1)
      && forall i :: 1 <= i < |sent| ==> !sent[i].Connected? && sent[i].sequence == i
  {
    RunKeepsInv(c, events);
    StartStays(c, events);
  }

  /** No step takes a frame back. */
  lemma StepExtends(c: Config, s: State, e: Event)
    requires Enabled(s, e)
    ensures s.sent <= Step(c, s, e).sent
  {
    hide Playback.Step, Playback.ReceiveOutcome, Playback.Enabled, Planned, TwilioProtocol.FrameCount;
  }

  lemma {:induction false} StartStays(c: Config, events: seq<Event>)
    requires Run(c, events).Some?
    ensures [Connected, Start(1)] <= Run(c, events).value.sent
  {
    if events != [] {
      StartStays(c, events[..|events| - 1]);
      StepExtends(c, Run(c, events[..|events| - 1]).value, events[|events| - 1]);
      hide Step, Enabled;
    }
  }

  /** Chunks are 1..n, and their timestamps are the planned ones, strictly increasing. */
  lemma MediaFollowsThePlan(c: Config, events: seq<Event>)
    requires Run(c, events).Some?
    ensures var s := Run(c, events).value; var media := MediaOf(s.sent); var planned := Planned(Spoken(c), |Spoken(c)|);
      && |media| == s.inboundFrameCount <= |planned|
      && forall k :: 0 <= k < |media| ==>
           && media[k].MediaFrame? && media[k].chunk == k + 1
           && media[k].timestamp == planned[k]
           && (k > 0 ==> media[k].timestamp >= media[k - 1].timestamp + 20.0)
  {
    RunKeepsInv(c, events);
    var s := Run(c, events).value;
    var media, planned := MediaOf(s.sent), Planned(Spoken(c), |Spoken(c)|);
    PlanCovers(c, s);
    forall k | 0 < k < |media| ensures planned[k] >= planned[k - 1] + 20.0 {
      PlannedIncreases(Spoken(c), k - 1, k);
    }
  }

  lemma PlanCovers(c: Config, s: State)
    requires Inv(c, s)
    ensures var media := MediaOf(s.sent); var planned := Planned(Spoken(c), |Spoken(c)|);
      |media| <= |planned| && Stamped(media, planned[..|media|])
  {
    match s.sender
    case Streaming(turn, frame) => PlanPrefix(Spoken(c), turn, frame);
    case Pausing(turn) => PlannedGrows(Spoken(c), turn + 1, |Spoken(c)|);
    case _ =>
  }

  /** The mark frames on the wire are the queue's acknowledgements, in order. */
  lemma MarksOnTheWire(c: Config, events: seq<Event>)
    requires Run(c, events).Some?
    ensures var s := Run(c, events).value; MarksOf(s.sent) == s.playback.acked
  {
    RunKeepsInv(c, events);
  }
}
