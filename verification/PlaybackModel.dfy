/** TwilioPlaybackQueue as a state machine. The code between two `await`s is one step, and the order of steps is
  arbitrary. A run of `drain()` is a `Loop`: suspended at its `await`, or settled with its `finally` callback still to
  run. Sending an acknowledgement is not re-entrant: it never delivers a message to the queue before it returns. */
module PlaybackModel {
  import opened Options
  import opened TwilioProtocol

  /** `serial` is the object identity of an item: its position in arrival order. */
  datatype Item =
    | Media(serial: nat, generation: nat, payload: seq<byte>)
    | Mark(serial: nat, generation: nat, name: string)

  datatype EventName = MediaEvent | MarkEvent | ClearEvent | OtherEvent

  /** A parsed message; `payload` and `markName` are `None` when the field is not a string. */
  datatype Message =
    | Unparsable
    | Message(event: EventName, streamSid: string, payload: Option<seq<byte>>, markName: Option<string>)

  datatype Outcome = Returned(startedPlayback: bool) | Threw

  datatype Loop = Running | Waiting(item: Item) | Settled

  /** What happened, in order; the acknowledgements and counters of the state are compared with this log. */
  datatype Entry =
    | Arrived(item: Item)
    | Began(serial: nat)
    | Refused(serial: nat)
    | Ended(serial: nat)
    | ClearedAll
    | CancelledAll

  datatype Config = Config(streamSid: string, fingerprint: seq<byte>, loseMarks: bool)

  datatype State = State(
    queue: seq<Item>,
    generation: nat,
    drainPromise: bool,
    loops: seq<Loop>,
    activeMark: Option<Item>,
    cancelled: bool,
    clearCount: nat,
    outboundFrameCount: nat,
    fingerprintMatched: bool,
    markAcknowledgements: nat,
    acked: seq<string>,
    arrivals: nat,
    log: seq<Entry>)

  datatype Event =
    | Receive(message: Message)
    | Cancel
    | Resume(loop: nat)
    | RunFinally(loop: nat)

  function Initial(): State {
    State([], 0, false, [], None, false, 0, 0, true, 0, [], 0, [])
  }

  /** `acknowledge`, for each name in turn. */
  function Acknowledge(s: State, names: seq<string>): State {
    if s.cancelled then s
    else s.(acked := s.acked + names, markAcknowledgements := s.markAcknowledgements + |names|)
  }

  /** The `drain` loop from its head to its next `await` or its end. */
  function Head(s: State, i: nat): State
    requires i < |s.loops|
  {
    if s.queue == [] then s.(loops := s.loops[i := Settled])
    else
      var item := s.queue[0];
      var t := s.(queue := s.queue[1..]);
      match item
      case Media(serial, _, payload) =>
        if payload == [] then t.(loops := s.loops[i := Settled], log := s.log + [Refused(serial)])
        else t.(loops := s.loops[i := Waiting(item)], log := s.log + [Began(serial)])
      case Mark(serial, _, _) =>
        t.(loops := s.loops[i := Waiting(item)], activeMark := Some(item), log := s.log + [Began(serial)])
  }

  function StartDrain(s: State): State {
    if s.drainPromise then s
    else Head(s.(loops := s.loops + [Running]), |s.loops|).(drainPromise := true)
  }

  function Push(s: State, item: Item): State {
    s.(queue := s.queue + [item], arrivals := s.arrivals + 1, log := s.log + [Arrived(item)])
  }

  function MarkNames(items: seq<Item>): seq<string> {
    if items == [] then []
    else
      var last := items[|items| - 1];
      MarkNames(items[..|items| - 1]) + if last.Mark? then [last.name] else []
  }

  /** `[...new Set(names)]`: first occurrences, in order. */
  function Dedup(names: seq<string>): seq<string> {
    if names == [] then []
    else
      var rest := Dedup(names[..|names| - 1]);
      var last := names[|names| - 1];
      if last in rest then rest else rest + [last]
  }

  function PendingMarks(s: State): seq<string> {
    (if s.activeMark.Some? && s.activeMark.value.Mark? then [s.activeMark.value.name] else []) + MarkNames(s.queue)
  }

  function Clear(c: Config, s: State): State {
    var t := s.(clearCount := s.clearCount + 1, generation := s.generation + 1, queue := [], log := s.log + [ClearedAll]);
    if c.loseMarks then t else Acknowledge(t, Dedup(PendingMarks(s)))
  }

  function ReceiveOutcome(c: Config, s: State, m: Message): Outcome {
    if s.cancelled then Returned(false)
    else if m.Unparsable? then Threw
    else if !m.event.OtherEvent? && m.streamSid != c.streamSid then Threw
    else Returned(m.event.MediaEvent? && m.payload.Some?)
  }

  function OnReceive(c: Config, s: State, m: Message): State {
    if s.cancelled || ReceiveOutcome(c, s, m).Threw? then s
    else if m.event.MediaEvent? && m.payload.Some? then
      StartDrain(Push(s, Media(s.arrivals, s.generation, m.payload.value)))
    else if m.event.MarkEvent? && m.markName.Some? then
      StartDrain(Push(s, Mark(s.arrivals, s.generation, m.markName.value)))
    else if m.event.ClearEvent? then Clear(c, s)
    else s
  }

  function OnCancel(s: State): State {
    if s.cancelled then s
    else s.(cancelled := true, generation := s.generation + 1, queue := [], activeMark := None,
            log := s.log + [CancelledAll])
  }

  /** The part of `drain` that follows the `await`, up to the head of its loop. */
  function AfterWait(c: Config, s: State, i: nat): State
    requires i < |s.loops| && s.loops[i].Waiting?
  {
    var item := s.loops[i].item;
    var t := s.(loops := s.loops[i := Running], log := s.log + [Ended(item.serial)]);
    match item
    case Media(_, generation, payload) =>
      if generation != s.generation then t
      else t.(outboundFrameCount := s.outboundFrameCount + 1,
              fingerprintMatched := s.fingerprintMatched && VerifyCallFingerprint(payload, c.fingerprint))
    case Mark(_, generation, name) =>
      var u := if generation == s.generation && !c.loseMarks then Acknowledge(t, [name]) else t;
      if u.activeMark == Some(item) then u.(activeMark := None) else u
  }

  function OnResume(c: Config, s: State, i: nat): State
    requires i < |s.loops| && s.loops[i].Waiting?
  {
    if s.cancelled then s.(loops := s.loops[i := Settled]) else Head(AfterWait(c, s, i), i)
  }

  function OnFinally(s: State, i: nat): State
    requires i < |s.loops|
  {
    var t := s.(loops := s.loops[..i] + s.loops[i + 1..], drainPromise := false);
    if t.queue != [] then StartDrain(t) else t
  }

  predicate Enabled(s: State, e: Event) {
    match e
    case Resume(i) => i < |s.loops| && s.loops[i].Waiting?
    case RunFinally(i) => i < |s.loops| && s.loops[i].Settled?
    case _ => true
  }

  function Step(c: Config, s: State, e: Event): State
    requires Enabled(s, e)
  {
    match e
    case Receive(m) => OnReceive(c, s, m)
    case Cancel => OnCancel(s)
    case Resume(i) => OnResume(c, s, i)
    case RunFinally(i) => OnFinally(s, i)
  }

  /** The state after these events, or `None` when one of them was not possible. */
  function Run(c: Config, events: seq<Event>): Option<State> {
    if events == [] then Some(Initial())
    else
      match Run(c, events[..|events| - 1])
      case None => None
      case Some(s) => if Enabled(s, events[|events| - 1]) then Some(Step(c, s, events[|events| - 1])) else None
  }
}
