/** What the outbound trace says about each turn and greeting: a prefix of its script in every run, all of it when
  nothing cut it short, and what can cut it short. */
module RealtimeResults {
  import opened Options
  import opened Scripts
  import opened RealtimeModel
  import opened RealtimeForm
  import opened RealtimeTimers
  import opened RealtimeTurns
  import opened RealtimeTrace

  /** The frames of one origin in the outbound trace, in order. */
  function SentBy(trace: seq<Entry>, o: nat): seq<Wire> {
    if trace == [] then []
    else
      var last := trace[|trace| - 1];
      SentBy(trace[..|trace| - 1], o) + if last.Sent? && last.origin == o then [last.wire] else []
  }

  lemma SentBySnoc(trace: seq<Entry>, e: Entry, o: nat)
    ensures SentBy(trace + [e], o) == SentBy(trace, o) + if e.Sent? && e.origin == o then [e.wire] else []
  {
  }

  lemma StepRecords(s: State, e: Event, o: nat)
    requires Formed(s) && Enabled(s, e) && SentBy(s.trace, o) == RecordOf(s, o)
    ensures SentBy(Step(s, e).trace, o) == RecordOf(Step(s, e), o)
  {
    var r := Step(s, e);
    StepTrace(s, e);
    hide Formed, Step, Enabled, RecordOf;
    if r.trace != s.trace {
      SentBySnoc(s.trace, Added(s, r), o);
    }
  }

  lemma {:induction false} RunRecords(events: seq<Event>, o: nat)
    requires Run(events).Some?
    ensures SentBy(Run(events).value.trace, o) == RecordOf(Run(events).value, o)
  {
    if events != [] {
      RunRecords(events[..|events| - 1], o);
      StepRecords(Run(events[..|events| - 1]).value, events[|events| - 1], o);
    }
  }

  /** In every run - more audio, other sockets, greetings, aborts and closes in any order - the frames sent for a turn or
    a greeting are in order a prefix of its script (for a turn in protocol-error mode, with the last event broken), and
    exactly that script once it is over complete. */
  lemma TurnTraceIsPrefix(events: seq<Event>, o: nat)
    requires Run(events).Some? && o < |Run(events).value.origins|
    ensures var s := Run(events).value; var origin := s.origins[o];
      && SentBy(s.trace, o) <= Plan(origin)
      && (origin.place == Over(true) ==> SentBy(s.trace, o) == Plan(origin))
  {
    RunRecords(events, o);
    RunTurns(events);
    var s := Run(events).value;
    var origin := s.origins[o];
    assert Sound(o, origin, s.sockets[s.homes[o]].writable, s.tasks);
    hide Turns, Run, Script, Plan;
    match origin.place
    case InPending =>
      AtPointIsPrefix(Plan(origin), origin.sent, AfterSpeech(origin), s.sockets[s.homes[o]].writable);
    case InTask(t) =>
      AtPointIsPrefix(Plan(origin), origin.sent, Remaining(origin, s.tasks[t].body),
                      s.sockets[s.homes[o]].writable && !s.tasks[t].aborted);
    case _ =>
  }

  // ---------------------------------------------------------------- what cuts a task short

  /** The task can still deliver its whole plan: not aborted, its socket writable, and - for response events - the
    generation of the call not moved on. */
  predicate Unhindered(s: State, t: nat) {
    && t < |s.tasks| && IsStage(s.tasks[t].body) && !s.tasks[t].aborted
    && var o := OriginOf(s.tasks[t].body).value;
    && o < |s.origins| && o < |s.homes| && s.homes[o] == s.tasks[t].socket < |s.sockets| && s.tasks[t].socket < |s.calls|
    && s.sockets[s.homes[o]].writable
    && s.origins[o].generation == Count(s.generations, s.calls[s.tasks[t].socket])
  }

  /** Resuming the task ends it before its plan is through. */
  predicate EndsCutShort(s: State, t: nat)
    requires Formed(s) && t < |s.tasks| && IsStage(s.tasks[t].body)
  {
    var o, r := OriginOf(s.tasks[t].body).value, Step(s, TaskResumes(t));
    o < |r.origins| && r.origins[o].place == Over(false)
  }

  /** A resumed task ends incomplete only if it was aborted, its socket no longer writable, or its generation passed. */
  lemma OnlyHindrancesCutShort(s: State, t: nat)
    requires Formed(s) && Turns(s) && t < |s.tasks| && IsStage(s.tasks[t].body)
    requires EndsCutShort(s, t)
    ensures !Unhindered(s, t)
  {
    StageOrigin(s, t);
    TaskMoves(s, t);
    hide Turns, Formed, Step, AtPoint, Plan, Remaining, Script, ResponseEvents;
  }

  /** Other tasks keep their abort flags. */
  predicate AbortsOnly(before: seq<Task>, after: seq<Task>, k: nat) {
    |before| <= |after| && forall t :: 0 <= t < |before| && before[t].socket != k ==> after[t].aborted == before[t].aborted
  }

  lemma RestartAborts(s: State, k: nat)
    requires Formed(s) && Live(s) && k < |s.sockets| && s.sockets[k].pending.Some?
    ensures AbortsOnly(s.tasks, RestartTimer(s, k).tasks, k)
    ensures forall t :: 0 <= t < |s.tasks| && IsStage(s.tasks[t].body) ==>
      RestartTimer(s, k).tasks[t].aborted == s.tasks[t].aborted
  {
    var timer := s.sockets[k].pending.value.timer;
    assert timer < |s.tasks| && s.tasks[timer].socket == k && !IsStage(s.tasks[timer].body);
    assert SocketAt(s.homes, |s.tasks|, k, s.sockets[k]);
    hide SilenceMs, Live, Formed;
  }

  lemma StartAborts(s: State, k: nat)
    requires Formed(s) && Live(s) && k < |s.sockets| && s.calls[k] in s.scenarios
    ensures AbortsOnly(s.tasks, StartTurn(s, k).tasks, k)
  {
    var controller := s.sockets[k].controller;
    assert controller.Some? ==> controller.value < |s.tasks| && s.tasks[controller.value].socket == k;
    assert StartTurn(s, k).tasks == AbortIn(s.tasks, controller) by { hide AbortIn, NewOrigin, ResolveTool, Live; }
    hide StartTurn, Live, Formed;
  }

  lemma AudioAborts(s: State, k: nat)
    requires Formed(s) && Live(s) && k < |s.sockets|
    ensures var r := OnMessage(s, k, AppendAudio);
      && AbortsOnly(s.tasks, r.tasks, k)
      && (s.sockets[k].pending.Some? ==>
            forall t :: 0 <= t < |s.tasks| && IsStage(s.tasks[t].body) ==> r.tasks[t].aborted == s.tasks[t].aborted)
  {
    hide Live, RestartTimer, StartTurn;
    if s.calls[k] in s.scenarios {
      if s.sockets[k].pending.Some? {
        RestartAborts(s, k);
      } else {
        StartAborts(s, k);
      }
    }
    hide Formed;
  }

  lemma MessageAborts(s: State, k: nat, m: Message)
    requires Formed(s) && Live(s) && k < |s.sockets|
    ensures var r := OnMessage(s, k, m);
      && AbortsOnly(s.tasks, r.tasks, k)
      && (!m.AppendAudio? || s.sockets[k].pending.Some? ==>
            forall t :: 0 <= t < |s.tasks| && IsStage(s.tasks[t].body) ==> r.tasks[t].aborted == s.tasks[t].aborted)
  {
    if m.AppendAudio? {
      AudioAborts(s, k);
      hide OnMessage, Live, Formed, AbortsOnly;
    } else {
      hide NewOrigin, Live, Formed;
    }
  }

  lemma GreetAborts(s: State, k: nat, o: nat)
    requires Formed(s) && Live(s) && k < |s.sockets| && OriginAt(s.homes, k, o)
    ensures AbortsOnly(s.tasks, Greet(s, k, o).tasks, k)
  {
    hide ResponseEvents, TimersLate, TimersLive, Formed;
  }

  lemma HandlerAborts(s: State, k: nat)
    requires Formed(s) && Live(s) && k < |s.sockets|
    ensures var r := OnHandler(s, k);
      && AbortsOnly(s.tasks, r.tasks, k)
      && (!s.sockets[k].handler.Greeting? ==>
            forall t :: 0 <= t < |s.tasks| ==> r.tasks[t].aborted == s.tasks[t].aborted)
  {
    var handler := s.sockets[k].handler;
    assert SocketAt(s.homes, |s.tasks|, k, s.sockets[k]);
    hide SilenceMs, Live, Formed, Greet, BeginTurn;
    if handler.Greeting? {
      hide AbortsOnly;
      GreetAborts(s, k, handler.origin);
    } else if handler.StartingTurn? {
      BeginTurnPends(s, k, handler.origin);
      hide OnHandler;
      assert OnHandler(s, k).tasks == BeginTurn(s, k, handler.origin).tasks by { BeginsTurn(s, k, handler.origin); }
    }
  }

  lemma BeginsTurn(s: State, k: nat, o: nat)
    requires Formed(s) && k < |s.sockets| && s.sockets[k].handler == StartingTurn(o) && OriginAt(s.homes, k, o)
    ensures OnHandler(s, k) == BeginTurn(s, k, o)
  {
    hide BeginTurn, Formed;
  }

  lemma TimerAborts(s: State, t: nat)
    requires Formed(s) && Live(s) && t < |s.tasks| && s.tasks[t].body.Timer?
    ensures AbortsOnly(s.tasks, OnTimer(s, t).tasks, s.tasks[t].socket)
  {
    assert s.tasks[t].socket < |s.sockets| && BodyAt(s.homes, s.tasks[t].socket, s.tasks[t].body);
    hide CallerEvents, WithoutSpeechStarted, TimersLate, TimersLive, Formed;
  }

  lemma CloseAborts(s: State, k: nat)
    requires Formed(s) && Live(s) && k < |s.sockets|
    ensures AbortsOnly(s.tasks, OnClose(s, k).tasks, k)
  {
    hide TimersLate, SilenceMs;
    var middle := AbortIn(s.tasks, s.sockets[k].controller);
    assert AbortsOnly(s.tasks, middle, k);
    assert AbortsOnly(middle, AbortIn(middle, PendingTimer(s.sockets[k])), k);
  }

  /** A response task is aborted only by the end of its socket or of the server, by the first audio of a new turn on its
    socket, or by a newer response on its socket. */
  lemma OnlyTheseAbort(s: State, e: Event, t: nat)
    requires Formed(s) && Live(s) && Enabled(s, e) && t < |s.tasks| && LiveResponse(s.tasks[t])
    requires t < |Step(s, e).tasks| && Step(s, e).tasks[t].aborted
    ensures var k := s.tasks[t].socket;
      || e == CloseFires(k) || e.StopServer?
      || (e == Deliver(k, AppendAudio) && k < |s.sockets| && s.sockets[k].pending.None?)
      || (e == ResumeHandler(k) && k < |s.sockets| && s.sockets[k].handler.Greeting?)
      || (e.TimerWakes? && e.task < |s.tasks| && s.tasks[e.task].socket == k)
  {
    hide Live;
    match e
    case CloseFires(k) => CloseAborts(s, k); hide OnClose, Formed;
    case Deliver(k, m) => MessageAborts(s, k, m); hide OnMessage, Formed;
    case ResumeHandler(k) => HandlerAborts(s, k); hide OnHandler, Formed;
    case TimerWakes(u) => TimerAborts(s, u); hide OnTimer, Formed;
    case TaskResumes(u) => TaskShape(s, u); hide Step, Formed;
    case StopServer =>
    case _ => hide Formed;
  }

  // ---------------------------------------------------------------- an unhindered task finishes

  /** How many resumptions a task still needs. */
  function StageWork(s: State, t: nat): nat
    requires t < |s.tasks|
  {
    match s.tasks[t].body
    case CallerStage(o, rest) => |rest| + 3 + (if o < |s.origins| then |ResponseEvents(s.origins[o].events)| else 0)
    case ModeStage(o) => 2 + (if o < |s.origins| then |ResponseEvents(s.origins[o].events)| else 0)
    case ResponseStage(_, rest) => 1 + |rest|
    case _ => 0
  }

  /** Resume one task until it has ended. */
  ghost function LetRun(s: State, t: nat): (r: State)
    requires Formed(s) && t < |s.tasks|
    decreases StageWork(s, t)
  {
    if !IsStage(s.tasks[t].body) then s
    else
      StepFormed(s, TaskResumes(t));
      TaskWorks(s, t);
      LetRun(Step(s, TaskResumes(t)), t)
  }

  /** Every resumption of a task brings it closer to its end. */
  lemma TaskWorks(s: State, t: nat)
    requires Formed(s) && t < |s.tasks| && IsStage(s.tasks[t].body)
    ensures var r := Step(s, TaskResumes(t)); t < |r.tasks| && StageWork(r, t) < StageWork(s, t)
  {
    TaskMoves(s, t);
    hide Formed, Step, ResponseEvents;
  }

  /** What a move may do to a task that nothing hinders: go on in the same origin, or end complete. */
  predicate GoesOnOrCompletes(o: nat, origin: Origin, move: Move) {
    && move.origin.scenario == origin.scenario && move.origin.greeting == origin.greeting
    && move.origin.generation == origin.generation
    && if IsStage(move.body) then OriginOf(move.body) == Some(o) && move.writable else move.origin.place == Over(true)
  }

  lemma UnhinderedMove(s: State, t: nat)
    requires Formed(s) && Unhindered(s, t)
    ensures GoesOnOrCompletes(OriginOf(s.tasks[t].body).value, s.origins[OriginOf(s.tasks[t].body).value], MoveOf(s, t))
  {
    hide Formed, ResponseEvents;
  }

  lemma UnhinderedStep(s: State, t: nat)
    requires Formed(s) && Turns(s) && Unhindered(s, t)
    ensures var o := OriginOf(s.tasks[t].body).value; var r := Step(s, TaskResumes(t));
      && Turns(r) && Formed(r) && o < |r.origins| && t < |r.tasks| && r.origins[o].scenario == s.origins[o].scenario
      && r.origins[o].greeting == s.origins[o].greeting
      && if IsStage(r.tasks[t].body) then Unhindered(r, t) && OriginOf(r.tasks[t].body) == Some(o)
         else r.origins[o].place == Over(true)
  {
    assert Enabled(s, TaskResumes(t));
    StepFormed(s, TaskResumes(t));
    TaskTurns(s, t);
    TaskMoves(s, t);
    UnhinderedMove(s, t);
    hide Formed, Step, Turns, MoveOf, Enabled, Outcome;
    UnhinderedOutcome(s, Step(s, TaskResumes(t)), t, OriginOf(s.tasks[t].body).value, MoveOf(s, t));
  }

  lemma UnhinderedOutcome(s: State, r: State, t: nat, o: nat, move: Move)
    requires Unhindered(s, t) && o == OriginOf(s.tasks[t].body).value && |s.origins| == |s.homes|
    requires Outcome(s, r, t, o, move) && GoesOnOrCompletes(o, s.origins[o], move)
    ensures o < |r.origins| && t < |r.tasks| && r.origins[o].scenario == s.origins[o].scenario
    ensures r.origins[o].greeting == s.origins[o].greeting
    ensures if IsStage(r.tasks[t].body) then Unhindered(r, t) && OriginOf(r.tasks[t].body) == Some(o)
            else r.origins[o].place == Over(true)
  {
  }

  /** Left to itself, an unhindered task ends, and its turn or greeting has then sent its whole script. */
  lemma {:induction false} UnhinderedCompletes(s: State, t: nat)
    requires Formed(s) && Turns(s) && Unhindered(s, t)
    ensures var o := OriginOf(s.tasks[t].body).value; var r := LetRun(s, t);
      && o < |r.origins| && Plan(r.origins[o]) == Plan(s.origins[o])
      && r.origins[o].place == Over(true) && r.origins[o].sent == Plan(s.origins[o])
    decreases StageWork(s, t)
  {
    var o, r := OriginOf(s.tasks[t].body).value, Step(s, TaskResumes(t));
    UnhinderedStep(s, t);
    TaskWorks(s, t);
    hide Turns, Formed, Step, StageWork;
    assert Plan(r.origins[o]) == Plan(s.origins[o]);
    if IsStage(r.tasks[t].body) {
      UnhinderedCompletes(r, t);
    } else {
      OverIsWhole(r, o);
    }
  }

  lemma OverIsWhole(s: State, o: nat)
    requires Turns(s) && o < |s.origins| && s.origins[o].place == Over(true)
    ensures s.origins[o].sent == Plan(s.origins[o])
  {
    assert Sound(o, s.origins[o], s.sockets[s.homes[o]].writable, s.tasks);
    hide Plan, Script;
  }
}
