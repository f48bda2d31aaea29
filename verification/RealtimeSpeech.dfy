/** Which turns and greetings can still put a frame on the wire: an exact condition on the present state for the existence
  of a continuation, for every origin in every reachable state. */
module RealtimeSpeech {
  import opened Options
  import opened Scripts
  import opened RealtimeModel
  import opened RealtimeForm
  import opened RealtimeTimers
  import opened RealtimeTurns
  import opened RealtimeTrace
  import opened RealtimeResults
  import opened RealtimeOrder
  import opened RealtimeAccounts
  import opened RealtimeSupersession

  // ---------------------------------------------------------------- the condition

  /** The origin has the call's current generation. */
  predicate Current(s: State, o: nat)
    requires o < |s.origins| == |s.homes| && s.homes[o] < |s.calls|
  {
    s.origins[o].generation == Count(s.generations, s.calls[s.homes[o]])
  }

  /** What comes after the caller events says something: the broken frame, or response events of the current generation. */
  predicate TailSpeaks(s: State, o: nat)
    requires o < |s.origins| == |s.homes| && s.homes[o] < |s.calls|
  {
    s.origins[o].scenario.mode.ProtocolError? || (!s.origins[o].scenario.mode.ProviderClose? && Current(s, o))
  }

  predicate BodySpeaks(s: State, o: nat, body: Body)
    requires o < |s.origins| == |s.homes| && s.homes[o] < |s.calls|
  {
    match body
    case CallerStage(_, rest) => rest != [] || TailSpeaks(s, o)
    case ModeStage(_) => TailSpeaks(s, o)
    case ResponseStage(_, rest) => rest != [] && Current(s, o)
    case _ => false
  }

  /** The socket is writable, and the origin waits for its turn or has something left that will not be held back. */
  predicate MaySpeak(s: State, o: nat) {
    && o < |s.origins| == |s.homes| && s.homes[o] < |s.sockets| == |s.calls| && Writable(s, o)
    && match s.origins[o].place
       case InHandler => true
       case InPending => true
       case InTask(t) => t < |s.tasks| && !s.tasks[t].aborted && BodySpeaks(s, o, s.tasks[t].body)
       case Over(_) => false
  }

  // ---------------------------------------------------------------- tasks keep their bodies

  /** Only the task that resumes changes a stage. */
  ghost predicate StagesStay(before: seq<Task>, after: seq<Task>, own: int) {
    |before| <= |after|
    && forall t :: 0 <= t < |before| && t != own && IsStage(before[t].body) ==> after[t].body == before[t].body
  }

  lemma AbortStages(tasks: seq<Task>, a: Option<nat>)
    ensures StagesStay(tasks, AbortIn(tasks, a), -1)
  {
  }

  lemma RestartStages(s: State, k: nat)
    requires Formed(s) && k < |s.sockets| && s.sockets[k].pending.Some?
    ensures StagesStay(s.tasks, RestartTimer(s, k).tasks, -1)
  {
    RestartRenews(s, k);
    AbortStages(s.tasks, PendingTimer(s.sockets[k]));
    hide RestartTimer, AbortIn, SilenceMs, PendingTimer, Formed;
  }

  lemma StartStages(s: State, k: nat)
    requires Formed(s) && k < |s.sockets| && s.calls[k] in s.scenarios
    ensures StartTurn(s, k).tasks == AbortIn(s.tasks, s.sockets[k].controller) && StartGreeting(s, k).tasks == s.tasks
    ensures StagesStay(s.tasks, StartTurn(s, k).tasks, -1)
  {
    AbortStages(s.tasks, s.sockets[k].controller);
    hide AbortIn, NewOrigin, ResolveTool, Formed, StagesStay;
  }

  lemma MessageStages(s: State, k: nat, m: Message)
    requires Formed(s) && k < |s.sockets|
    ensures StagesStay(s.tasks, OnMessage(s, k, m).tasks, -1)
  {
    assert |s.calls| == |s.sockets|;
    hide RestartTimer, StartTurn, StartGreeting, Formed;
    if s.calls[k] in s.scenarios && (m.AppendAudio? || m.ResponseCreate?) {
      StartStages(s, k);
      if s.sockets[k].pending.Some? {
        RestartStages(s, k);
      }
    }
  }

  lemma HandlerStages(s: State, k: nat)
    requires Formed(s) && k < |s.sockets|
    ensures StagesStay(s.tasks, OnHandler(s, k).tasks, -1)
  {
    var handler := s.sockets[k].handler;
    assert SocketAt(s.homes, |s.tasks|, k, s.sockets[k]);
    hide BeginTurn, Greet, Formed, SilenceMs;
    if handler.StartingTurn? {
      assert OnHandler(s, k) == BeginTurn(s, k, handler.origin);
      hide OnHandler;
      BeginTurnPends(s, k, handler.origin);
    } else if handler.Greeting? {
      assert OnHandler(s, k) == Greet(s, k, handler.origin);
      hide OnHandler, StagesStay;
      GreetingStages(s, k, handler.origin);
    }
  }

  lemma GreetingStages(s: State, k: nat, o: nat)
    requires Formed(s) && k < |s.sockets| && OriginAt(s.homes, k, o)
    ensures StagesStay(s.tasks, Greet(s, k, o).tasks, -1)
  {
    AbortStages(s.tasks, s.sockets[k].controller);
    hide AbortIn, ResponseEvents, Formed, Tracked;
  }

  lemma TimerStages(s: State, t: nat)
    requires Formed(s) && t < |s.tasks| && s.tasks[t].body.Timer?
    ensures StagesStay(s.tasks, OnTimer(s, t).tasks, -1)
  {
    assert s.tasks[t].socket < |s.sockets| && BodyAt(s.homes, s.tasks[t].socket, s.tasks[t].body);
    hide CompleteTurn, Formed;
    CompletionStages(s, t);
  }

  lemma CompletionStages(s: State, t: nat)
    requires Formed(s) && t < |s.tasks| && s.tasks[t].body.Timer? && s.tasks[t].socket < |s.sockets|
    ensures StagesStay(s.tasks, CompleteTurn(s, t).tasks, -1)
  {
    AbortStages(s.tasks[t := s.tasks[t].(body := Settled)], s.sockets[s.tasks[t].socket].controller);
    hide AbortIn, Formed, CallerEvents, WithoutSpeechStarted, Tracked;
  }

  lemma CloseStages(s: State, k: nat)
    requires Formed(s) && k < |s.sockets|
    ensures StagesStay(s.tasks, OnClose(s, k).tasks, -1)
  {
    AbortStages(s.tasks, s.sockets[k].controller);
    AbortStages(AbortIn(s.tasks, s.sockets[k].controller), PendingTimer(s.sockets[k]));
    hide AbortIn, Formed, PendingTimer;
  }

  lemma StepStages(s: State, e: Event)
    requires Formed(s) && Enabled(s, e)
    ensures StagesStay(s.tasks, Step(s, e).tasks, if e.TaskResumes? then e.task else -1)
  {
    hide OnMessage, OnHandler, OnTimer, OnClose, Formed;
    match e
    case Deliver(k, m) => MessageStages(s, k, m); hide StagesStay;
    case ResumeHandler(k) => HandlerStages(s, k); hide StagesStay;
    case TimerWakes(t) => TimerStages(s, t); hide StagesStay;
    case CloseFires(k) => CloseStages(s, k); hide StagesStay;
    case TaskResumes(t) => TaskShape(s, t); hide Step;
    case _ =>
  }

  // ---------------------------------------------------------------- what is spent stays spent

  /** A step that puts a frame of the origin on the wire finds it able to speak. */
  lemma SpentSaysNothing(s: State, e: Event, o: nat)
    requires Formed(s) && Turns(s) && Enabled(s, e) && o < |s.origins| && !MaySpeak(s, o)
    ensures !PutsOnWire(s, Step(s, e), o)
  {
    assert |s.homes| == |s.origins| && |s.calls| == |s.sockets|;
    StepSpeaksExactly(s, e, o);
    if e.ResumeHandler? {
      SocketHolds(s, e.socket);
    } else if e.TaskResumes? && OriginOf(s.tasks[e.task].body) == Some(o) {
      StageOrigin(s, e.task);
    }
    hide Formed, Turns, Step, PutsOnWire, AtPoint, Plan, Remaining;
  }

  /** A writable origin that is not of the current generation will never be. */
  lemma NotCurrentStays(s: State, e: Event, o: nat)
    requires Formed(s) && Turns(s) && Dated(s) && CountsOpen(s) && Enabled(s, e)
    requires o < |s.origins| == |s.homes| && s.homes[o] < |s.sockets| == |s.calls|
    requires Writable(s, o) && HasJoined(s.origins[o]) && !Current(s, o)
    ensures Silenced(Step(s, e), o)
  {
    assert DatedAt(s, o);
    assert Silenced(s, o);
    hide Formed, Turns, Dated, CountsOpen, Step, Enabled, Silenced;
    SilencedStep(s, e, o);
  }

  /** The task's own step leaves its origin with nothing to say, if it had nothing. */
  lemma OwnStepSpent(s: State, t: nat, o: nat)
    requires Formed(s) && Turns(s) && Enabled(s, TaskResumes(t)) && OriginOf(s.tasks[t].body) == Some(o)
    requires o < |s.origins| && !MaySpeak(s, o)
    ensures !MaySpeak(Step(s, TaskResumes(t)), o)
  {
    assert |s.calls| == |s.sockets|;
    StageOrigin(s, t);
    TaskMoves(s, t);
    hide Formed, Turns, Step, AtPoint, Plan, Remaining, Script, ResponseEvents, Outcome, MaySpeak;
    MoveSpent(s, Step(s, TaskResumes(t)), t, o);
  }

  lemma MoveSpent(s: State, r: State, t: nat, o: nat)
    requires Formed(s) && t < |s.tasks| && IsStage(s.tasks[t].body) && OriginOf(s.tasks[t].body) == Some(o)
    requires o < |s.origins| == |s.homes| && s.homes[o] == s.tasks[t].socket < |s.sockets| == |s.calls|
    requires s.origins[o].place == InTask(t) && !MaySpeak(s, o) && Outcome(s, r, t, o, MoveOf(s, t))
    ensures !MaySpeak(r, o)
  {
    hide Formed, ResponseEvents, Speaks;
    SpeaksKeeps(s.origins[o], Writable(s, o), InvalidJson);
    if s.tasks[t].body.CallerStage? && s.tasks[t].body.rest != [] {
      SpeaksKeeps(s.origins[o], Writable(s, o), Json(s.tasks[t].body.rest[0]));
    } else if s.tasks[t].body.ResponseStage? && s.tasks[t].body.rest != [] {
      SpeaksKeeps(s.origins[o], Writable(s, o), Json(s.tasks[t].body.rest[0]));
    }
  }

  lemma SpeaksKeeps(origin: Origin, writable: bool, wire: Wire)
    ensures var after := Speaks(origin, writable, wire); after == origin.(sent := after.sent)
  {
  }

  /** Steps of others do not give it anything to say. */
  lemma OtherStepSpent(s: State, e: Event, o: nat)
    requires Formed(s) && Turns(s) && Dated(s) && CountsOpen(s) && Enabled(s, e) && o < |s.origins| && !MaySpeak(s, o)
    requires !(e.TaskResumes? && OriginOf(s.tasks[e.task].body) == Some(o))
    ensures !MaySpeak(Step(s, e), o)
  {
    var r := Step(s, e);
    assert |s.homes| == |s.origins| && |s.calls| == |s.sockets| && s.homes[o] < |s.sockets|;
    StepTables(s, e);
    StepForward(s, e);
    StepStages(s, e);
    if s.origins[o].place.InTask? {
      InTaskIsStage(s, o);
      if Writable(s, o) && !Current(s, o) {
        NotCurrentStays(s, e, o);
      }
    }
    hide Formed, Turns, Dated, CountsOpen, Step, Enabled, TablesStep, MaySpeak;
    LaterSpent(s, r, o, if e.TaskResumes? then e.task else -1);
  }

  lemma InTaskIsStage(s: State, o: nat)
    requires Turns(s) && o < |s.origins| && s.origins[o].place.InTask?
    ensures var t := s.origins[o].place.task;
      && t < |s.tasks| && IsStage(s.tasks[t].body) && OriginOf(s.tasks[t].body) == Some(o)
      && (s.origins[o].greeting ==> s.tasks[t].body.ResponseStage?)
  {
    assert Sound(o, s.origins[o], s.sockets[s.homes[o]].writable, s.tasks);
    hide Plan, AtPoint, Script, Remaining;
  }

  lemma LaterSpent(s: State, r: State, o: nat, own: int)
    requires o < |s.origins| == |s.homes| && s.homes[o] < |s.sockets| == |s.calls| && !MaySpeak(s, o)
    requires OriginsKept(s, r) && Forward(s, r) && StagesStay(s.tasks, r.tasks, own) && s.calls <= r.calls
    requires s.origins[o].place.InTask? ==>
      var t := s.origins[o].place.task; t != own && t < |s.tasks| && IsStage(s.tasks[t].body)
    requires s.origins[o].place.InTask? && Writable(s, o) && !Current(s, o) ==> Silenced(r, o)
    ensures !MaySpeak(r, o)
  {
    assert Later(s.origins[o].place, r.origins[o].place);
    assert r.calls[s.homes[o]] == s.calls[s.homes[o]];
  }

  lemma SpentStep(s: State, e: Event, o: nat)
    requires Formed(s) && Turns(s) && Dated(s) && CountsOpen(s) && Enabled(s, e) && o < |s.origins| && !MaySpeak(s, o)
    ensures !MaySpeak(Step(s, e), o) && SentBy(Step(s, e).trace, o) == SentBy(s.trace, o)
  {
    SpentSaysNothing(s, e, o);
    UnspokenAddsNothing(s, e, o);
    if e.TaskResumes? && OriginOf(s.tasks[e.task].body) == Some(o) {
      OwnStepSpent(s, e.task, o);
    } else {
      OtherStepSpent(s, e, o);
    }
    hide Formed, Turns, Dated, CountsOpen, Step, MaySpeak, PutsOnWire, SentBy;
  }

  lemma {:induction false} SpentForever(events: seq<Event>, more: seq<Event>, o: nat)
    requires Run(events).Some? && Run(events + more).Some?
    requires o < |Run(events).value.origins| && !MaySpeak(Run(events).value, o)
    ensures o < |Run(events + more).value.origins| && !MaySpeak(Run(events + more).value, o)
    ensures SentBy(Run(events + more).value.trace, o) == SentBy(Run(events).value.trace, o)
  {
    if more == [] {
      assert events + more == events;
    } else {
      var init, last := more[..|more| - 1], more[|more| - 1];
      RunUnfolds(events, more);
      RunTurns(events + init);
      RunDated(events + init);
      RunAccounts(events + init);
      hide Run, Turns, Dated, CountsOpen, TracksTasks, Step, SentBy, MaySpeak, Forward, Enabled;
      SpentForever(events, init, o);
      SpentStep(Run(events + init).value, last, o);
      StepForward(Run(events + init).value, last);
      OriginsGrow(Run(events + init).value, Step(Run(events + init).value, last));
    }
  }

  lemma OriginsGrow(s: State, r: State)
    requires Forward(s, r)
    ensures |s.origins| <= |r.origins|
  {
  }

  // ---------------------------------------------------------------- a writable socket belongs to a running server

  ghost predicate Served(s: State) {
    forall k :: 0 <= k < |s.sockets| && s.sockets[k].writable ==> s.running
  }

  lemma RunningStays(s: State, e: Event)
    requires Formed(s) && Enabled(s, e) && !e.StopServer?
    ensures Step(s, e).running == s.running
    ensures !e.Connect? ==> |Step(s, e).sockets| == |s.sockets|
  {
    hide OnMessage, OnHandler, OnTimer, OnClose, OnRelease;
    match e
    case Deliver(k, m) => MessageKeeps(s, k, m); MessageRuns(s, k, m); hide Formed;
    case ResumeHandler(k) => HandlerKeeps(s, k); HandlerRuns(s, k); hide Formed;
    case TimerWakes(t) => TimerKeeps(s, t); TimerRuns(s, t); hide Formed;
    case TaskResumes(t) => TaskShape(s, t); hide Step, Formed;
    case CloseFires(k) => CloseRuns(s, k); hide Formed;
    case Release(c) => ReleaseSockets(s, c); ReleaseRuns(s, c);
    case _ =>
  }

  lemma MessageRuns(s: State, k: nat, m: Message)
    requires Formed(s) && k < |s.sockets|
    ensures OnMessage(s, k, m).running == s.running
  {
    hide RestartTimer, StartTurn, StartGreeting;
    if s.calls[k] in s.scenarios && m.AppendAudio? && s.sockets[k].pending.Some? {
      RestartRenews(s, k);
    } else if s.calls[k] in s.scenarios && (m.AppendAudio? || m.ResponseCreate?) {
      StartRuns(s, k);
    }
    hide Formed;
  }

  lemma StartRuns(s: State, k: nat)
    requires Formed(s) && k < |s.sockets| && s.calls[k] in s.scenarios
    ensures StartTurn(s, k).running == s.running && StartGreeting(s, k).running == s.running
  {
    hide Formed, NewOrigin, ResolveTool, AbortIn;
  }

  lemma HandlerRuns(s: State, k: nat)
    requires Formed(s) && k < |s.sockets|
    ensures OnHandler(s, k).running == s.running
  {
    var handler := s.sockets[k].handler;
    assert SocketAt(s.homes, |s.tasks|, k, s.sockets[k]);
    hide BeginTurn, Greet, Formed;
    if handler.StartingTurn? {
      assert OnHandler(s, k) == BeginTurn(s, k, handler.origin);
      hide OnHandler;
      BeginTurnPends(s, k, handler.origin);
    } else if handler.Greeting? {
      assert OnHandler(s, k) == Greet(s, k, handler.origin);
      hide OnHandler;
      GreetingRuns(s, k, handler.origin);
    }
  }

  lemma GreetingRuns(s: State, k: nat, o: nat)
    requires Formed(s) && k < |s.sockets| && OriginAt(s.homes, k, o)
    ensures Greet(s, k, o).running == s.running
  {
    hide AbortIn, ResponseEvents, Formed, Tracked;
  }

  lemma TimerRuns(s: State, t: nat)
    requires Formed(s) && t < |s.tasks| && s.tasks[t].body.Timer?
    ensures OnTimer(s, t).running == s.running
  {
    var k, o := s.tasks[t].socket, s.tasks[t].body.origin;
    assert k < |s.sockets| && BodyAt(s.homes, k, s.tasks[t].body) && |s.homes| == |s.origins|;
    hide Formed, CompleteTurn;
    CompletionRuns(s, t);
  }

  lemma CompletionRuns(s: State, t: nat)
    requires Formed(s) && t < |s.tasks| && s.tasks[t].body.Timer?
    ensures CompleteTurn(s, t).running == s.running
  {
    hide Formed, CallerEvents, WithoutSpeechStarted, AbortIn, Tracked;
  }

  lemma CloseRuns(s: State, k: nat)
    requires Formed(s) && k < |s.sockets|
    ensures OnClose(s, k).running == s.running && |OnClose(s, k).sockets| == |s.sockets|
  {
    hide Formed, AbortIn;
  }

  lemma ReleaseRuns(s: State, c: string)
    ensures OnRelease(s, c).running == s.running
  {
    hide Releasable;
  }

  lemma StepServed(s: State, e: Event)
    requires Formed(s) && Turns(s) && Enabled(s, e) && Served(s) && OpenOnly(s.sockets)
    ensures Served(Step(s, e))
  {
    if e.StopServer? {
      hide Formed, Turns;
    } else {
      RunningStays(s, e);
      if !e.Connect? {
        StepForward(s, e);
        hide Step, Formed, Turns, TasksForward, OriginsForward;
      }
    }
  }

  lemma {:induction false} RunServed(events: seq<Event>)
    requires Run(events).Some?
    ensures Served(Run(events).value)
  {
    if events != [] {
      RunServed(events[..|events| - 1]);
      RunTurns(events[..|events| - 1]);
      RunDated(events[..|events| - 1]);
      hide Turns, Served, OpenOnly, DatedAt;
      StepServed(Run(events[..|events| - 1]).value, events[|events| - 1]);
    }
  }

  // ---------------------------------------------------------------- who may speak gets to speak

  /** What every reachable state is known to keep. */
  ghost predicate Known(s: State) {
    && Formed(s) && Live(s) && Turns(s) && Held(s.sockets, s.homes, s.origins) && GreetingsNormal(s)
    && OpenOnly(s.sockets) && Served(s)
  }

  lemma RunKnown(events: seq<Event>)
    requires Run(events).Some?
    ensures Known(Run(events).value)
  {
    RunLive(events);
    RunTurns(events);
    RunHeld(events);
    RunGreetings(events);
    RunDated(events);
    RunServed(events);
    hide Formed, Live, Turns, Held, GreetingsNormal, OpenOnly, Served, DatedAt, Run;
  }

  lemma KnownParts(s: State)
    requires Known(s)
    ensures Formed(s) && Live(s) && Turns(s) && Held(s.sockets, s.homes, s.origins) && GreetingsNormal(s)
  {
    hide Formed, Live, Turns, Held, GreetingsNormal, OpenOnly, Served;
  }

  lemma FormedSizes(s: State)
    requires Formed(s)
    ensures |s.calls| == |s.sockets| && |s.homes| == |s.origins|
  {
  }

  predicate TimerDue(s: State, k: nat)
    requires k < |s.sockets| && s.sockets[k].pending.Some?
  {
    var t := s.sockets[k].pending.value.timer;
    t < |s.tasks| && s.tasks[t].body.Timer? && s.now >= s.tasks[t].body.due
  }

  /** Steps from here to the origin's next frame, if it may speak. */
  function Distance(s: State, o: nat): nat {
    if o >= |s.origins| || o >= |s.homes| || s.homes[o] >= |s.sockets| then 0
    else
      match s.origins[o].place
      case InHandler => 4
      case InPending => if s.sockets[s.homes[o]].pending.Some? && TimerDue(s, s.homes[o]) then 5 else 6
      case InTask(t) =>
        if t >= |s.tasks| then 0 else if s.tasks[t].body.CallerStage? then 3 else if s.tasks[t].body.ModeStage? then 2 else 1
      case Over(_) => 0
  }

  /** The step puts a frame on the wire, or brings the origin closer to its next one. */
  ghost predicate Advances(s: State, r: State, o: nat) {
    PutsOnWire(s, r, o) || (MaySpeak(r, o) && Distance(r, o) < Distance(s, o))
  }

  lemma HandlerAdvances(s: State, o: nat)
    requires Known(s) && MaySpeak(s, o) && s.origins[o].place.InHandler?
    ensures Enabled(s, ResumeHandler(s.homes[o])) && Advances(s, Step(s, ResumeHandler(s.homes[o])), o)
  {
    var k := s.homes[o];
    var e := ResumeHandler(k);
    assert s.sockets[k].handler == (if s.origins[o].greeting then Greeting(o) else StartingTurn(o));
    assert Enabled(s, e);
    if s.origins[o].greeting {
      GreetingAdvances(s, o);
      hide Known, Step, Advances;
    } else {
      StepSpeaksExactly(s, e, o);
      hide Known, Step, MaySpeak, Distance, PutsOnWire;
    }
  }

  /** A response that nothing hinders may speak. */
  lemma UnhinderedMaySpeak(s: State, t: nat, o: nat)
    requires Unhindered(s, t) && s.tasks[t].body.ResponseStage? && s.tasks[t].body.origin == o
    requires s.tasks[t].body.rest != [] && s.origins[o].place == InTask(t)
    requires |s.homes| == |s.origins| && |s.calls| == |s.sockets|
    ensures MaySpeak(s, o) && Distance(s, o) == 1
  {
  }

  lemma GreetingAdvances(s: State, o: nat)
    requires Known(s) && MaySpeak(s, o) && s.origins[o].place.InHandler? && s.sockets[s.homes[o]].handler == Greeting(o)
    requires s.origins[o].greeting
    ensures Advances(s, Step(s, ResumeHandler(s.homes[o])), o)
  {
    hide Known, Formed, Live, Turns, Held, GreetingsNormal, Plan, AtPoint, Remaining, Script, ResponseEvents, PutsOnWire;
    KnownParts(s);
    var k, t, r := s.homes[o], |s.tasks|, Step(s, ResumeHandler(s.homes[o]));
    assert Distance(s, o) == 4 && Enabled(s, ResumeHandler(k)) && r == OnHandler(s, k) && s.sockets[k].writable;
    hide MaySpeak, Distance, Step, OnHandler, Enabled, Unhindered;
    GreetingHasEvents(s, o);
    StepFormed(s, ResumeHandler(k));
    HandlerTurns(s, k);
    GreetingJoinsUnhindered(s, k, o);
    GreetingJoined(r, t, o);
  }

  /** In the sound state after it. */
  lemma GreetingJoined(r: State, t: nat, o: nat)
    requires Formed(r) && Turns(r) && Unhindered(r, t) && r.tasks[t].body.ResponseStage? && r.tasks[t].body.origin == o
    requires r.tasks[t].body.rest != []
    ensures MaySpeak(r, o) && Distance(r, o) == 1
  {
    FormedSizes(r);
    StageOrigin(r, t);
    hide Formed, Turns, Plan, AtPoint, Remaining, Script, MaySpeak, Distance;
    UnhinderedMaySpeak(r, t, o);
  }

  lemma WaitAdvances(s: State, o: nat, t: nat)
    requires Formed(s) && MaySpeak(s, o) && s.origins[o].place.InPending? && s.sockets[s.homes[o]].pending.Some?
    requires t == s.sockets[s.homes[o]].pending.value.timer < |s.tasks| && s.tasks[t].body.Timer?
    requires s.now < s.tasks[t].body.due
    ensures Advances(s, Step(s, TimePasses(s.tasks[t].body.due - s.now)), o)
  {
    var d := s.tasks[t].body.due - s.now;
    var r := s.(now := s.now + d);
    assert Step(s, TimePasses(d)) == r;
    hide Formed, Step, BodySpeaks;
  }

  lemma DueTimerCompletes(s: State, k: nat, t: nat)
    requires Formed(s) && k < |s.sockets| && s.sockets[k].pending.Some? && TimerDue(s, k)
    requires t == s.sockets[k].pending.value.timer < |s.tasks| && LiveTimer(s.tasks[t]) && s.tasks[t].socket == k
    requires s.tasks[t].body.origin == s.sockets[k].pending.value.origin
    ensures Enabled(s, TimerWakes(t)) && Step(s, TimerWakes(t)) == CompleteTurn(s, t)
  {
    hide CompleteTurn, Formed;
  }

  /** A pending turn on a writable socket has its timer. */
  lemma PendingIsLive(s: State, o: nat)
    requires Known(s) && MaySpeak(s, o) && s.origins[o].place.InPending?
    ensures var k := s.homes[o];
      && s.sockets[k].pending.Some? && s.sockets[k].pending.value.origin == o
      && var t := s.sockets[k].pending.value.timer;
      t < |s.tasks| && LiveTimer(s.tasks[t]) && s.tasks[t].socket == k && s.tasks[t].body.origin == o
  {
    hide Formed, Turns, GreetingsNormal, ResponsesLive, TimersLate;
  }

  /** The turn that completes is in a new, live task with all its caller events but the first. */
  lemma CompletionShape(s: State, t: nat)
    requires Formed(s) && t < |s.tasks| && s.tasks[t].body.Timer? && s.tasks[t].socket < |s.sockets|
    requires s.tasks[t].body.origin < |s.origins|
    ensures var r, k, o := CompleteTurn(s, t), s.tasks[t].socket, s.tasks[t].body.origin;
      && r.homes == s.homes && |r.origins| == |s.origins| && r.calls == s.calls && |r.sockets| == |s.sockets|
      && r.sockets[k].writable == s.sockets[k].writable && |r.tasks| == |s.tasks| + 1
      && r.origins[o].place == InTask(|s.tasks|)
      && r.tasks[|s.tasks|] == Task(k, false, CallerStage(o, WithoutSpeechStarted(CallerEvents(s.origins[o].events))))
  {
    hide Formed, CallerEvents, WithoutSpeechStarted, AbortIn, Tracked;
  }

  lemma CompletionAdvances(s: State, o: nat, t: nat)
    requires Known(s) && MaySpeak(s, o) && s.origins[o].place.InPending? && t < |s.tasks| && LiveTimer(s.tasks[t])
    requires s.tasks[t].body.origin == o && s.tasks[t].socket == s.homes[o]
    requires s.sockets[s.homes[o]].pending.Some? && TimerDue(s, s.homes[o])
    ensures Advances(s, CompleteTurn(s, t), o)
  {
    TurnHasCallerEvents(s, o);
    CompletionShape(s, t);
    hide Known, CallerEvents, WithoutSpeechStarted, PutsOnWire, CompleteTurn;
  }

  lemma TurnHasCallerEvents(s: State, o: nat)
    requires Turns(s) && o < |s.origins|
    ensures WithoutSpeechStarted(CallerEvents(s.origins[o].events)) != []
  {
    assert Sound(o, s.origins[o], s.sockets[s.homes[o]].writable, s.tasks);
    ScriptSplits(s.origins[o].scenario);
    hide Turns, Script, CallerEvents, WithoutSpeechStarted;
  }

  lemma DueAdvances(s: State, o: nat, t: nat)
    requires Known(s) && Formed(s) && MaySpeak(s, o) && s.origins[o].place.InPending?
    requires t < |s.tasks| && LiveTimer(s.tasks[t]) && s.tasks[t].body.origin == o && s.tasks[t].socket == s.homes[o]
    requires s.sockets[s.homes[o]].pending == Some(Pending(o, t)) && TimerDue(s, s.homes[o])
    ensures Enabled(s, TimerWakes(t)) && Advances(s, Step(s, TimerWakes(t)), o)
  {
    var k := s.homes[o];
    assert k < |s.sockets|;
    hide Known, Formed, MaySpeak, Advances, CompleteTurn, Step, Enabled;
    DueTimerCompletes(s, k, t);
    CompletionAdvances(s, o, t);
  }

  lemma PendingAdvances(s: State, o: nat) returns (e: Event)
    requires Known(s) && MaySpeak(s, o) && s.origins[o].place.InPending?
    ensures Enabled(s, e) && Advances(s, Step(s, e), o)
  {
    hide Known, Formed, Live, Turns, Held, GreetingsNormal, Step, Advances;
    KnownParts(s);
    PendingIsLive(s, o);
    var k := s.homes[o];
    var t := s.sockets[k].pending.value.timer;
    hide MaySpeak;
    if TimerDue(s, k) {
      DueAdvances(s, o, t);
      e := TimerWakes(t);
    } else {
      WaitAdvances(s, o, t);
      e := TimePasses(s.tasks[t].body.due - s.now);
    }
  }

  lemma TaskAdvances(s: State, o: nat)
    requires Known(s) && MaySpeak(s, o) && s.origins[o].place.InTask?
    ensures var e := TaskResumes(s.origins[o].place.task); Enabled(s, e) && Advances(s, Step(s, e), o)
  {
    var t := s.origins[o].place.task;
    var e := TaskResumes(t);
    InTaskIsStage(s, o);
    StageOrigin(s, t);
    assert Enabled(s, e);
    StepSpeaksExactly(s, e, o);
    TaskMoves(s, t);
    ModeHasEvents(s, o);
    hide Known, Step, Outcome, MaySpeak, PutsOnWire, MoveOf, AtPoint, Plan, Remaining, Script, ResponseEvents;
    if !(SaysUnguarded(s, e, o) || SaysResponse(s, e, o)) {
      MoveAdvances(s, Step(s, e), t, o);
    }
  }

  lemma ModeHasEvents(s: State, o: nat)
    requires Turns(s) && o < |s.origins|
    ensures !s.origins[o].scenario.mode.ProviderClose? ==> ResponseEvents(s.origins[o].events) != []
  {
    assert Sound(o, s.origins[o], s.sockets[s.homes[o]].writable, s.tasks);
    ScriptSplits(s.origins[o].scenario);
    hide Turns, Script, ResponseEvents;
  }

  /** A step of the task that says nothing goes on to its next stage. */
  lemma MoveAdvances(s: State, r: State, t: nat, o: nat)
    requires Formed(s) && MaySpeak(s, o) && s.origins[o].place == InTask(t) && t < |s.tasks|
    requires IsStage(s.tasks[t].body) && OriginOf(s.tasks[t].body) == Some(o) && s.tasks[t].socket == s.homes[o]
    requires Outcome(s, r, t, o, MoveOf(s, t))
    requires !s.origins[o].scenario.mode.ProviderClose? ==> ResponseEvents(s.origins[o].events) != []
    requires !SaysUnguarded(s, TaskResumes(t), o) && !SaysResponse(s, TaskResumes(t), o)
    ensures MaySpeak(r, o) && Distance(r, o) < Distance(s, o)
  {
    hide Formed, ResponseEvents;
  }

  lemma OriginAdvances(s: State, o: nat) returns (e: Event)
    requires Known(s) && MaySpeak(s, o)
    ensures Enabled(s, e) && Advances(s, Step(s, e), o)
  {
    hide Known, Advances, Step;
    match s.origins[o].place
    case InHandler => HandlerAdvances(s, o); e := ResumeHandler(s.homes[o]);
    case InPending => e := PendingAdvances(s, o);
    case InTask(t) => TaskAdvances(s, o); e := TaskResumes(t);
  }

  predicate SpeaksLater(events: seq<Event>, more: seq<Event>, o: nat) {
    && Run(events).Some? && Run(events + more).Some?
    && SentBy(Run(events + more).value.trace, o) != SentBy(Run(events).value.trace, o)
  }

  /** One more event either makes the origin speak or brings it closer. */
  lemma OneEventOn(events: seq<Event>, o: nat) returns (e: Event)
    requires Run(events).Some? && MaySpeak(Run(events).value, o)
    ensures Run(events + [e]).Some?
    ensures var s, r := Run(events).value, Run(events + [e]).value;
      || SentBy(r.trace, o) != SentBy(s.trace, o)
      || (MaySpeak(r, o) && Distance(r, o) < Distance(s, o) && SentBy(r.trace, o) == SentBy(s.trace, o))
  {
    var s := Run(events).value;
    RunKnown(events);
    assert Formed(s);
    hide Known, MaySpeak, Step, Distance, SentBy, Formed, Enabled, Run, PutsOnWire;
    e := OriginAdvances(s, o);
    RunGrows(events, e);
    if PutsOnWire(s, Step(s, e), o) {
      SpokenIsSent(s, e, o);
    } else {
      UnspokenAddsNothing(s, e, o);
    }
  }

  lemma SpokenIsSent(s: State, e: Event, o: nat)
    requires Formed(s) && Enabled(s, e) && PutsOnWire(s, Step(s, e), o)
    ensures SentBy(Step(s, e).trace, o) != SentBy(s.trace, o)
  {
    SpokenTrace(s, e, o);
    SentBySnoc(s.trace, Added(s, Step(s, e)), o);
    hide Formed, Step, Enabled, SentBy;
  }

  lemma LaterStill(events: seq<Event>, e: Event, rest: seq<Event>, o: nat)
    requires Run(events).Some? && Run(events + [e]).Some? && SpeaksLater(events + [e], rest, o)
    requires SentBy(Run(events + [e]).value.trace, o) == SentBy(Run(events).value.trace, o)
    ensures SpeaksLater(events, [e] + rest, o)
  {
    hide Run, SentBy;
    assert events + ([e] + rest) == events + [e] + rest;
  }

  lemma {:induction false} SpeaksSoon(events: seq<Event>, o: nat) returns (more: seq<Event>)
    requires Run(events).Some? && MaySpeak(Run(events).value, o)
    ensures SpeaksLater(events, more, o)
    decreases Distance(Run(events).value, o)
  {
    hide Run, MaySpeak, Distance, SentBy;
    var e := OneEventOn(events, o);
    if SentBy(Run(events + [e]).value.trace, o) != SentBy(Run(events).value.trace, o) {
      more := [e];
    } else {
      hide SpeaksLater;
      var rest := SpeaksSoon(events + [e], o);
      LaterStill(events, e, rest, o);
      more := [e] + rest;
    }
  }

  lemma SpokenTrace(s: State, e: Event, o: nat)
    requires Formed(s) && Enabled(s, e) && PutsOnWire(s, Step(s, e), o)
    ensures Step(s, e).trace == s.trace + [Added(s, Step(s, e))]
  {
    StepTrace(s, e);
    hide Formed, Step, RecordOf, Enabled;
  }

  /** In every reachable state an origin has a continuation in which it puts another frame on the wire if and only if it
    may speak. */
  lemma SpeaksAgainExactly(events: seq<Event>, o: nat)
    requires Run(events).Some? && o < |Run(events).value.origins|
    ensures (exists more :: SpeaksLater(events, more, o)) <==> MaySpeak(Run(events).value, o)
  {
    if MaySpeak(Run(events).value, o) {
      var more := SpeaksSoon(events, o);
      assert SpeaksLater(events, more, o);
    } else {
      forall more | Run(events + more).Some? ensures !SpeaksLater(events, more, o) {
        SpentForever(events, more, o);
      }
    }
  }

  // ---------------------------------------------------------------- after a takeover

  /** Seen before the audio arrives on socket `j`: the origin is on another socket, still writable, and it waits there, or
    its live task has caller events left or is in protocol-error mode and has not come to its response. */
  predicate MaySpeakOver(s: State, j: nat, o: nat) {
    && o < |s.origins| == |s.homes| && s.homes[o] < |s.sockets| == |s.calls| && s.homes[o] != j && Writable(s, o)
    && match s.origins[o].place
       case InHandler => true
       case InPending => true
       case InTask(t) =>
         && t < |s.tasks| && !s.tasks[t].aborted
         && (match s.tasks[t].body
             case CallerStage(_, rest) => rest != [] || s.origins[o].scenario.mode.ProtocolError?
             case ModeStage(_) => s.origins[o].scenario.mode.ProtocolError?
             case _ => false)
       case Over(_) => false
  }

  lemma MuteCannotSpeak(s: State, o: nat)
    requires Mute(s, o)
    ensures !MaySpeak(s, o)
  {
  }

  /** The takeover leaves the tasks of other sockets alone. */
  lemma OtherTasksStay(s: State, j: nat, t: nat)
    requires Formed(s) && Live(s) && j < |s.sockets| && s.calls[j] in s.scenarios
    requires t < |s.tasks| && s.tasks[t].socket != j
    ensures t < |StartTurn(s, j).tasks| && StartTurn(s, j).tasks[t] == s.tasks[t]
  {
    StartStages(s, j);
    ControllerAborts(s.sockets, s.tasks, j);
    hide Formed, StartTurn, StartGreeting, AbortIn;
  }

  /** It puts every earlier origin of the call that is writable behind the current generation. */
  lemma TakeoverOvertakes(s: State, j: nat, o: nat)
    requires Formed(s) && j < |s.sockets| && s.calls[j] in s.scenarios && o < |s.origins| && DatedAt(s, o)
    requires s.calls[s.homes[o]] == s.calls[j] && Writable(s, o) && HasJoined(s.origins[o])
    ensures s.origins[o].generation < Count(StartTurn(s, j).generations, s.calls[j])
  {
    hide Formed, NewOrigin, ResolveTool, AbortIn;
  }

  /** On another socket only what the generation guards is lost. */
  lemma OtherSocketLeaves(s: State, r: State, j: nat, o: nat)
    requires o < |s.origins| == |s.homes| && s.homes[o] < |s.sockets| == |s.calls| && s.homes[o] != j
    requires s.origins <= r.origins && s.homes <= r.homes && r.calls == s.calls && |r.sockets| == |s.sockets|
    requires |r.homes| == |r.origins| && r.sockets[s.homes[o]].writable == s.sockets[s.homes[o]].writable
    requires s.origins[o].place.InTask? && Writable(s, o) ==>
      var t := s.origins[o].place.task;
      && t < |s.tasks| && t < |r.tasks| && r.tasks[t] == s.tasks[t]
      && s.origins[o].generation < Count(r.generations, s.calls[s.homes[o]])
    ensures MaySpeak(r, o) <==> MaySpeakOver(s, j, o)
  {
  }

  lemma TakeoverLeaves(s: State, e: Event, o: nat)
    requires Known(s) && Dated(s) && Formed(s) && Enabled(s, e) && TakesOver(s, e)
    requires o < |s.origins| == |s.homes| && s.homes[o] < |s.sockets| && s.calls[s.homes[o]] == s.calls[e.socket]
    ensures MaySpeak(Step(s, e), o) <==> MaySpeakOver(s, e.socket, o)
  {
    var j := e.socket;
    assert DatedAt(s, o);
    hide Known, Dated, Live, Turns, Held, GreetingsNormal, DatedAt, MaySpeak, AtPoint, Plan, Remaining, Script, Mute;
    KnownParts(s);
    StartKeepsRest(s, j);
    hide Step, StartTurn, Formed, Enabled;
    if s.homes[o] == j {
      StartMutes(s, e, o);
      MuteCannotSpeak(Step(s, e), o);
    } else {
      hide MaySpeakOver;
      if s.origins[o].place.InTask? && Writable(s, o) {
        InTaskIsStage(s, o);
        StageOrigin(s, s.origins[o].place.task);
        OtherTasksStay(s, j, s.origins[o].place.task);
        TakeoverOvertakes(s, j, o);
      }
      OtherSocketLeaves(s, Step(s, e), j, o);
    }
  }

  /** After audio that takes the call over, an earlier turn or greeting of the call has a continuation in which it still
    puts a frame on the wire - speech, a caller event, the broken frame, or a greeting's response - if and only if this
    could be seen before. */
  lemma EarlierOriginSpeaksExactly(events: seq<Event>, e: Event, o: nat)
    requires Run(events).Some? && Enabled(Run(events).value, e) && TakesOver(Run(events).value, e)
    requires var s := Run(events).value;
      o < |s.origins| == |s.homes| && s.homes[o] < |s.sockets| == |s.calls| && s.calls[s.homes[o]] == s.calls[e.socket]
    ensures Run(events + [e]).Some?
    ensures SentBy(Run(events + [e]).value.trace, o) == SentBy(Run(events).value.trace, o)
    ensures (exists more :: SpeaksLater(events + [e], more, o)) <==> MaySpeakOver(Run(events).value, e.socket, o)
  {
    var s := Run(events).value;
    RunKnown(events);
    RunDated(events);
    RunGrows(events, e);
    StartKeepsRest(s, e.socket);
    assert Formed(s);
    hide Known, Dated, Formed, Run, Step, StartTurn, MaySpeak, MaySpeakOver, SpeaksLater;
    TakeoverLeaves(s, e, o);
    TakeoverIsSilent(s, e, o);
    SpeaksAgainExactly(events + [e], o);
  }

  lemma TakeoverIsSilent(s: State, e: Event, o: nat)
    requires Formed(s) && Enabled(s, e) && TakesOver(s, e)
    ensures SentBy(Step(s, e).trace, o) == SentBy(s.trace, o)
  {
    StepTrace(s, e);
    SentBySnoc(s.trace, Step(s, e).trace[|s.trace|], o);
    hide Formed, Step, SentBy, RecordOf;
  }
}
