/** Two limits of supersession, each shown by a run: the deliberately broken frame of protocol-error mode carries no
  generation, and a greeting whose events are still being made joins the newer generation. */
module RealtimeWitness {
  import opened Options
  import opened Scripts
  import opened RealtimeModel
  import opened RealtimeForm
  import opened RealtimeTrace
  import opened RealtimeSupersession

  const CALL := "call"
  const BROKEN := Scenario("f", [], ProtocolError, None, Some(0), None, None)

  // ---------------------------------------------------------------- the first turn gets into its task

  function Numbered(): Scenario {
    BROKEN.(responseSequence := Some(1))
  }

  function First(place: Place, sent: seq<Wire>): Origin {
    Origin(0, 1, 1, false, Numbered(), Script(Numbered()), place, sent)
  }

  function Speech(): Wire {
    ScriptSplits(Numbered());
    Json(Script(Numbered())[0])
  }

  function Rest(): seq<ServerEvent> {
    WithoutSpeechStarted(CallerEvents(Script(Numbered())))
  }

  function Fresh(): Socket {
    Socket(true, true, [], Free, None, None, 0)
  }

  function Opened(): State {
    State(0, true, map[CALL := BROKEN], map[], map[], map[CALL := 2], map[], map[], [CALL, CALL], [Fresh(), Fresh()],
          [], [], [], [])
  }

  function Started(): State {
    Opened().(generations := map[CALL := 1], sequences := map[CALL := 1],
              sockets := [Fresh().(handler := StartingTurn(0)), Fresh()], homes := [0],
              origins := [First(InHandler, [])], trace := [TurnStarted(CALL, 0, 0, 1)])
  }

  function Announced(): State {
    Started().(sockets := [Fresh().(pending := Some(Pending(0, 0))), Fresh()],
               tasks := [Task(0, false, Timer(0, 0))], active := map[CALL := {0}],
               origins := [First(InPending, [Speech()])],
               trace := [TurnStarted(CALL, 0, 0, 1), Sent(CALL, 0, 0, Speech(), None)])
  }

  function Answering(): State {
    Announced().(sockets := [Fresh().(controller := Some(1)), Fresh()],
                 tasks := [Task(0, false, Settled), Task(0, false, CallerStage(0, Rest()))],
                 active := map[CALL := {0, 1}], origins := [First(InTask(1), [Speech()])])
  }

  function OneOpen(): State {
    Initial().(scenarios := map[CALL := BROKEN], calls := [CALL], sockets := [Fresh()], counts := map[CALL := 1])
  }

  lemma ScenarioSet()
    ensures var s := Initial().(scenarios := map[CALL := BROKEN]);
      Formed(Initial()) && Step(Initial(), SetScenario(CALL, BROKEN)) == s && Formed(s)
  {
  }

  lemma SocketsOpen()
    ensures var s := Initial().(scenarios := map[CALL := BROKEN]);
      && Formed(OneOpen()) && OnConnect(s, CALL, true) == OneOpen() && OnConnect(OneOpen(), CALL, true) == Opened()
  {
  }

  lemma OpenStep()
    ensures Run([SetScenario(CALL, BROKEN), Connect(CALL, true), Connect(CALL, true)]) == Some(Opened())
  {
    var e0, e1 := SetScenario(CALL, BROKEN), Connect(CALL, true);
    var s1 := Initial().(scenarios := map[CALL := BROKEN]);
    ScenarioSet();
    SocketsOpen();
    assert Run([]) == Some(Initial());
    assert Enabled(Initial(), e0) && Enabled(s1, e1) && Enabled(OneOpen(), e1);
    assert Step(s1, e1) == OneOpen() && Step(OneOpen(), e1) == Opened() by { hide Formed, OnConnect, OneOpen, Opened; }
    hide Run, Step, Formed, OneOpen, Opened, Initial;
    Plays([], e0, Initial(), s1);
    Plays([] + [e0], e1, s1, OneOpen());
    Plays([] + [e0] + [e1], e1, OneOpen(), Opened());
    assert [] + [e0] + [e1] + [e1] == [e0, e1, e1];
  }

  lemma StartStep()
    ensures Formed(Opened()) && Step(Opened(), Deliver(0, AppendAudio)) == Started()
  {
    hide Script;
    assert Opened().sockets[0 := Fresh().(handler := StartingTurn(0))] == Started().sockets;
  }

  lemma AnnounceStep()
    ensures Formed(Started()) && Step(Started(), ResumeHandler(0)) == Announced()
  {
    ScriptSplits(Numbered());
    hide Script, CallerEvents, FindSpeechStarted, WithoutSpeechStarted, ResponseEvents;
    assert FindSpeechStarted(CallerEvents(Started().origins[0].events)) == Some(Speech().event);
    assert AnnounceSpeech(Started(), 0) == Write(Started(), 0, Speech(), None);
    assert [] + [Speech()] == [Speech()];
    assert AnnounceSpeech(Started(), 0).origins == [First(InHandler, [Speech()])];
    assert AnnounceSpeech(Started(), 0).trace == Announced().trace;
    assert Started().sockets[0 := Announced().sockets[0]] == Announced().sockets;
    var r := Step(Started(), ResumeHandler(0));
    assert r == BeginTurn(Started(), 0, 0);
    assert {} + {0} == {0} && r.active == Announced().active;
    assert r.tasks == Announced().tasks;
    assert r.origins == Announced().origins;
  }

  lemma AnswerStep()
    ensures Formed(Announced()) && Step(Announced(), TimerWakes(0)) == Answering()
  {
    hide Script, CallerEvents, WithoutSpeechStarted;
    assert Announced().sockets[0 := Answering().sockets[0]] == Answering().sockets;
    assert {0} + {1} == {0, 1};
  }

  // ---------------------------------------------------------------- a second turn overtakes it

  /** The first turn is in its task, with this much to say, while the call has started its second generation. */
  ghost predicate Overtaken(s: State, body: Body) {
    && Formed(s) && |s.tasks| >= 2 && s.tasks[1] == Task(0, false, body)
    && |s.origins| == 2 && s.homes == [0, 1] && |s.sockets| == 2 && s.sockets[0].writable && s.calls == [CALL, CALL]
    && s.origins[0].generation == 1 && Count(s.generations, CALL) == 2 && Count(s.lifetimes, CALL) == 0
    && s.origins[0].scenario.mode == ProtocolError
    && TurnStarted(CALL, 0, 1, 2) in s.trace
  }

  lemma OvertakeStep()
    ensures Formed(Answering()) && Overtaken(Step(Answering(), Deliver(1, AppendAudio)), CallerStage(0, Rest()))
  {
    hide Script, CallerEvents, WithoutSpeechStarted, ResolveTool;
    var s, r := Answering(), Step(Answering(), Deliver(1, AppendAudio));
    assert r == StartTurn(s, 1);
    assert r.trace[|r.trace| - 1] == TurnStarted(CALL, 0, 1, 2);
    StartTurnFormed(s, 1);
  }

  /** The task goes on: one caller event, or the broken frame. */
  lemma OvertakenGoesOn(s: State, rest: seq<ServerEvent>)
    requires Overtaken(s, CallerStage(0, rest)) && rest != []
    ensures Overtaken(Step(s, TaskResumes(1)), if |rest| == 1 then ModeStage(0) else CallerStage(0, rest[1..]))
  {
    CallerStageFormed(s, 1);
    var w := Write(s, 0, Json(rest[0]), None);
    assert w == s.(origins := w.origins, trace := w.trace) && s.trace <= w.trace;
    assert w.origins[0] == s.origins[0].(sent := w.origins[0].sent) && |w.origins| == 2;
    hide Formed, Write;
  }

  lemma Plays(events: seq<Event>, e: Event, s: State, r: State)
    requires Run(events) == Some(s) && Enabled(s, e) && Formed(s) && Step(s, e) == r
    ensures Run(events + [e]) == Some(r)
  {
  }

  /** The events up to the point where the second turn has overtaken the first. */
  lemma Overtakes() returns (events: seq<Event>)
    ensures Run(events).Some? && Overtaken(Run(events).value, CallerStage(0, Rest()))
  {
    events := [SetScenario(CALL, BROKEN), Connect(CALL, true), Connect(CALL, true)];
    OpenStep();
    StartStep();
    AnnounceStep();
    AnswerStep();
    OvertakeStep();
    hide Step, Run, Formed, Overtaken, Opened, Started, Announced, Answering;
    EventsArePossible();
    Plays(events, Deliver(0, AppendAudio), Opened(), Started());
    events := events + [Deliver(0, AppendAudio)];
    Plays(events, ResumeHandler(0), Started(), Announced());
    events := events + [ResumeHandler(0)];
    Plays(events, TimerWakes(0), Announced(), Answering());
    events := events + [TimerWakes(0)];
    Plays(events, Deliver(1, AppendAudio), Answering(), Step(Answering(), Deliver(1, AppendAudio)));
    events := events + [Deliver(1, AppendAudio)];
  }

  lemma EventsArePossible()
    ensures Enabled(Opened(), Deliver(0, AppendAudio)) && Enabled(Started(), ResumeHandler(0))
    ensures Enabled(Announced(), TimerWakes(0)) && Enabled(Answering(), Deliver(1, AppendAudio))
  {
  }

  lemma Resumes(events: seq<Event>, rest: seq<ServerEvent>) returns (more: seq<Event>)
    requires Run(events).Some? && Overtaken(Run(events).value, CallerStage(0, rest)) && rest != []
    ensures Run(more).Some? && Overtaken(Run(more).value, if |rest| == 1 then ModeStage(0) else CallerStage(0, rest[1..]))
  {
    OvertakenGoesOn(Run(events).value, rest);
    RunGrows(events, TaskResumes(1));
    more := events + [TaskResumes(1)];
  }

  /** In some run, after a second turn of the call has started, the first turn still sends the broken frame. */
  lemma BrokenFrameIgnoresGeneration() returns (events: seq<Event>, i: nat, j: nat)
    ensures Run(events).Some? && i < j < |Run(events).value.trace|
    ensures var trace := Run(events).value.trace;
      trace[i] == TurnStarted(CALL, 0, 1, 2) && trace[j] == Sent(CALL, 0, 0, InvalidJson, None)
  {
    ScriptSplits(Numbered());
    assert |Rest()| == 3 by { hide Script; }
    hide Overtaken, Script;
    var e0 := Overtakes();
    var e1 := Resumes(e0, Rest());
    var e2 := Resumes(e1, Rest()[1..]);
    var e3 := Resumes(e2, Rest()[1..][1..]);
    var s := Run(e3).value;
    events := e3 + [TaskResumes(1)];
    LastWord(e3);
    i :| 0 <= i < |s.trace| && s.trace[i] == TurnStarted(CALL, 0, 1, 2);
    j := |s.trace|;
  }

  lemma LastWord(events: seq<Event>)
    requires Run(events).Some? && Overtaken(Run(events).value, ModeStage(0))
    ensures var s := Run(events).value; var r := Run(events + [TaskResumes(1)]);
      r.Some? && TurnStarted(CALL, 0, 1, 2) in s.trace && r.value.trace == s.trace + [Sent(CALL, 0, 0, InvalidJson, None)]
  {
  }

  // ---------------------------------------------------------------- a greeting requested before the second turn

  lemma GreetingRequested()
    ensures Formed(Opened()) && Enabled(Opened(), Deliver(0, ResponseCreate))
    ensures var s := Step(Opened(), Deliver(0, ResponseCreate)); var audio := Deliver(1, AppendAudio);
      Formed(s) && StillToJoin(s, 0) && Enabled(s, audio) && TakesOver(s, audio) && s.calls[s.homes[0]] == s.calls[1]
  {
    StartGreetingFormed(Opened(), 0);
    hide Script;
  }

  /** In some run a greeting requested before the audio of a new turn sends response events after it. */
  lemma GreetingAnswersAfterTakeover() returns (events: seq<Event>, more: seq<Event>)
    ensures Run(events).Some? && Enabled(Run(events).value, Deliver(1, AppendAudio))
    ensures TakesOver(Run(events).value, Deliver(1, AppendAudio))
    ensures AnswersLater(events, Deliver(1, AppendAudio), more, 0)
  {
    OpenStep();
    GreetingRequested();
    events := [SetScenario(CALL, BROKEN), Connect(CALL, true), Connect(CALL, true)];
    hide Run, Step, Opened, Formed;
    RunGrows(events, Deliver(0, ResponseCreate));
    events := events + [Deliver(0, ResponseCreate)];
    EarlierOriginAnswersExactly(events, Deliver(1, AppendAudio), 0);
    more :| AnswersLater(events, Deliver(1, AppendAudio), more, 0);
  }
}
