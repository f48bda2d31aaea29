/** The simultaneous duplicate-stream race: two sockets claim one media stream, one must be refused, and what the owner's
  socket received meanwhile is handed to the playback queue. Sockets, the timeout and the order of events are arbitrary. */
module DuplicateRace {
  import opened Options

  const REFUSED := 4409

  datatype Terminal = Closed(code: int) | Errored

  /** RaceCandidate: what its socket delivered while it buffers, and how the socket ended; `terminal` is the first end. */
  datatype Candidate = Candidate(
    messages: seq<string>, buffering: bool, failed: bool, closedCode: Option<int>, terminal: Option<Terminal>)

  /** `Won` is decided but not yet handed over; `Lost` is any way the race throws. */
  datatype Phase = Connecting | Racing | Won(owner: nat) | HandedOver(owner: nat) | Lost

  /** `heard[i]` is everything socket `i` delivered, `playback` what the playback queue was given, in order. */
  datatype State = State(
    candidates: seq<Candidate>, phase: Phase, bootstraps: nat, playback: seq<string>, heard: seq<seq<string>>)

  datatype Event =
    | Delivers(socket: nat, message: string)
    | Fails(socket: nat)
    | Closes(socket: nat, code: int)
    | BothOpen
    | GivesUp
    | Settles(socket: nat)
    | HandOver

  function Initial(): State {
    State([Candidate([], true, false, None, None), Candidate([], true, false, None, None)], Connecting, 0, [], [[], []])
  }

  function Ended(c: Candidate, terminal: Terminal): Candidate {
    if c.terminal.Some? then c else c.(terminal := Some(terminal))
  }

  function Other(i: nat): nat
    requires i < 2
  {
    1 - i
  }

  predicate TwoCandidates(s: State) {
    |s.candidates| == |s.heard| == 2 && (s.phase.Won? || s.phase.HandedOver? ==> s.phase.owner < 2)
  }

  /** A delivered message is buffered while its candidate buffers, and played once its socket owns the stream. */
  function OnDelivery(s: State, i: nat, message: string): State
    requires TwoCandidates(s) && i < 2
  {
    var c := s.candidates[i];
    s.(candidates := if c.buffering then s.candidates[i := c.(messages := c.messages + [message])] else s.candidates,
       heard := s.heard[i := s.heard[i] + [message]],
       playback := if s.phase == HandedOver(i) then s.playback + [message] else s.playback)
  }

  /** Both sockets bootstrap, unless something arrived before the second could. */
  function OnBothOpen(s: State): State
    requires TwoCandidates(s)
  {
    if s.candidates[0].messages != [] || s.candidates[1].messages != [] then s.(bootstraps := 1, phase := Lost)
    else s.(bootstraps := 2, phase := Racing)
  }

  /** The race is decided when one socket was refused, had delivered nothing, and the other is neither closed nor failed. */
  function OnSettled(s: State, i: nat): State
    requires TwoCandidates(s) && i < 2
  {
    var loser, owner := s.candidates[i], s.candidates[Other(i)];
    if loser.terminal == Some(Closed(REFUSED)) && loser.messages == [] && owner.closedCode.None? && !owner.failed then
      s.(phase := Won(Other(i)))
    else s.(phase := Lost)
  }

  /** Buffering stops, and the buffered messages are played before any later one can arrive. */
  function OnHandOver(s: State): State
    requires TwoCandidates(s) && s.phase.Won?
  {
    var o := s.phase.owner;
    s.(candidates := s.candidates[o := s.candidates[o].(buffering := false, messages := [])],
       playback := s.candidates[o].messages, phase := HandedOver(o))
  }

  predicate Enabled(s: State, e: Event)
    requires TwoCandidates(s)
  {
    match e
    case Delivers(i, _) => i < 2 && s.candidates[i].closedCode.None?
    case Fails(i) => i < 2
    case Closes(i, _) => i < 2 && s.candidates[i].closedCode.None?
    case BothOpen => s.phase.Connecting?
    case GivesUp => s.phase.Connecting? || s.phase.Racing?
    case Settles(i) => i < 2 && s.phase.Racing? && s.candidates[i].terminal.Some?
    case HandOver => s.phase.Won?
  }

  function Step(s: State, e: Event): (r: State)
    requires TwoCandidates(s) && Enabled(s, e)
    ensures TwoCandidates(r)
  {
    match e
    case Delivers(i, message) => OnDelivery(s, i, message)
    case Fails(i) => s.(candidates := s.candidates[i := Ended(s.candidates[i], Errored).(failed := true)])
    case Closes(i, code) =>
      s.(candidates := s.candidates[i := Ended(s.candidates[i], Closed(code)).(closedCode := Some(code))])
    case BothOpen => OnBothOpen(s)
    case GivesUp => s.(phase := Lost)
    case Settles(i) => OnSettled(s, i)
    case HandOver => OnHandOver(s)
  }

  function Run(events: seq<Event>): (r: Option<State>)
    ensures r.Some? ==> TwoCandidates(r.value)
  {
    if events == [] then Some(Initial())
    else
      match Run(events[..|events| - 1])
      case None => None
      case Some(s) => if Enabled(s, events[|events| - 1]) then Some(Step(s, events[|events| - 1])) else None
  }

  // ---------------------------------------------------------------- what every run keeps

  /** A buffering candidate holds all its socket delivered, and a recorded close is a real one. */
  ghost predicate Buffered(s: State)
    requires TwoCandidates(s)
  {
    forall i: nat :: i < 2 ==>
      && (s.candidates[i].buffering <==> s.phase != HandedOver(i))
      && (s.candidates[i].buffering ==> s.candidates[i].messages == s.heard[i])
      && (s.candidates[i].terminal.Some? && s.candidates[i].terminal.value.Closed? ==>
            s.candidates[i].closedCode == Some(s.candidates[i].terminal.value.code))
  }

  ghost predicate Decided(s: State)
    requires TwoCandidates(s)
  {
    if s.phase.Won? || s.phase.HandedOver? then
      var loser := Other(s.phase.owner);
      s.bootstraps == 2 && s.heard[loser] == [] && s.candidates[loser].closedCode == Some(REFUSED)
    else s.phase.Racing? ==> s.bootstraps == 2
  }

  ghost predicate Handed(s: State)
    requires TwoCandidates(s)
  {
    s.playback == if s.phase.HandedOver? then s.heard[s.phase.owner] else []
  }

  ghost predicate Fair(s: State)
    requires TwoCandidates(s)
  {
    Buffered(s) && Decided(s) && Handed(s)
  }

  lemma StepFair(s: State, e: Event)
    requires TwoCandidates(s) && Fair(s) && Enabled(s, e)
    ensures Fair(Step(s, e))
  {
    match e
    case Delivers(i, message) => assert s.heard[i] + [message] != [];
    case Settles(i) => assert Buffered(Step(s, e));
    case _ =>
  }

  lemma {:induction false} RunFair(events: seq<Event>)
    requires Run(events).Some?
    ensures Fair(Run(events).value)
  {
    if events != [] {
      RunFair(events[..|events| - 1]);
      StepFair(Run(events[..|events| - 1]).value, events[|events| - 1]);
    }
  }

  /** In every run, once the stream is handed over the playback queue has been given everything the owner's socket ever
    delivered, in order and once, and nothing of the other socket; before that it has been given nothing. */
  lemma HandoverLosesNothing(events: seq<Event>)
    requires Run(events).Some?
    ensures var s := Run(events).value;
      s.playback == if s.phase.HandedOver? then s.heard[s.phase.owner] else []
  {
    RunFair(events);
  }

  /** In every run, a stream that has an owner was claimed by both sockets, and the other socket was refused with 4409 and
    never delivered anything. */
  lemma OneOwnerOneRefusal(events: seq<Event>)
    requires Run(events).Some? && (Run(events).value.phase.Won? || Run(events).value.phase.HandedOver?)
    ensures var s := Run(events).value; var loser := Other(s.phase.owner);
      s.bootstraps == 2 && s.heard[loser] == [] && s.candidates[loser].closedCode == Some(REFUSED)
  {
    RunFair(events);
  }

  // ---------------------------------------------------------------- in place

  /** The two candidates and the playback they feed, updated by their socket listeners. */
  class MediaRace {
    var candidates: seq<Candidate>
    var phase: Phase
    var bootstraps: nat
    var playback: seq<string>
    ghost var heard: seq<seq<string>>

    ghost function Model(): State
      reads this
    {
      State(candidates, phase, bootstraps, playback, heard)
    }

    constructor ()
      ensures Model() == Initial()
    {
      var candidate := Candidate([], true, false, None, None);
      candidates, phase, bootstraps, playback, heard := [candidate, candidate], Connecting, 0, [], [[], []];
    }

    method OnMessage(socket: nat, message: string)
      requires TwoCandidates(Model()) && Enabled(Model(), Delivers(socket, message))
      modifies this
      ensures Model() == Step(old(Model()), Delivers(socket, message))
    {
      var candidate := candidates[socket];
      heard := heard[socket := heard[socket] + [message]];
      if candidate.buffering {
        candidates := candidates[socket := candidate.(messages := candidate.messages + [message])];
      }
      if phase == HandedOver(socket) {
        playback := playback + [message];
      }
    }

    method OnError(socket: nat)
      requires TwoCandidates(Model()) && Enabled(Model(), Fails(socket))
      modifies this
      ensures Model() == Step(old(Model()), Fails(socket))
    {
      var candidate := candidates[socket].(failed := true);
      if candidate.terminal.None? {
        candidate := candidate.(terminal := Some(Errored));
      }
      candidates := candidates[socket := candidate];
    }

    method OnClose(socket: nat, code: int)
      requires TwoCandidates(Model()) && Enabled(Model(), Closes(socket, code))
      modifies this
      ensures Model() == Step(old(Model()), Closes(socket, code))
    {
      var candidate := candidates[socket].(closedCode := Some(code));
      if candidate.terminal.None? {
        candidate := candidate.(terminal := Some(Closed(code)));
      }
      candidates := candidates[socket := candidate];
    }

    method Bootstrap()
      requires TwoCandidates(Model()) && phase.Connecting?
      modifies this
      ensures Model() == Step(old(Model()), BothOpen)
    {
      bootstraps := 1;
      if |candidates[0].messages| > 0 || |candidates[1].messages| > 0 {
        phase := Lost;
        return;
      }
      bootstraps := 2;
      phase := Racing;
    }

    method Decide(socket: nat)
      requires TwoCandidates(Model()) && Enabled(Model(), Settles(socket))
      modifies this
      ensures Model() == Step(old(Model()), Settles(socket))
    {
      var loser, owner := candidates[socket], candidates[1 - socket];
      if loser.terminal != Some(Closed(REFUSED)) || |loser.messages| > 0 || owner.closedCode.Some? || owner.failed {
        phase := Lost;
        return;
      }
      phase := Won(1 - socket);
    }

    /** The owner stops buffering, and its buffered messages are played in order. */
    method TakeOwnership()
      requires TwoCandidates(Model()) && phase.Won? && playback == []
      modifies this
      ensures Model() == Step(old(Model()), HandOver)
    {
      var owner := phase.owner;
      var buffered := candidates[owner].messages;
      candidates := candidates[owner := candidates[owner].(buffering := false, messages := [])];
      phase := HandedOver(owner);
      for k := 0 to |buffered|
        invariant playback == buffered[..k]
        invariant Model() == Step(old(Model()), HandOver).(playback := playback)
      {
        playback := playback + [buffered[k]];
      }
      assert buffered[..|buffered|] == buffered;
    }
  }
}
