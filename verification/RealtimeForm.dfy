/** Every step of the provider simulator keeps its numbers meaningful: each names something of the right socket. */
module RealtimeForm {
  import opened Options
  import opened Scripts
  import opened RealtimeModel

  lemma RestartFormed(s: State, k: nat)
    requires Formed(s) && k < |s.sockets| && s.sockets[k].pending.Some?
    ensures Formed(RestartTimer(s, k))
  {
  }

  lemma StartTurnFormed(s: State, k: nat)
    requires Formed(s) && k < |s.sockets| && s.calls[k] in s.scenarios
    ensures Formed(StartTurn(s, k))
  {
    hide NewOrigin, ResolveTool;
  }

  lemma StartGreetingFormed(s: State, k: nat)
    requires Formed(s) && k < |s.sockets| && s.calls[k] in s.scenarios
    ensures Formed(StartGreeting(s, k))
  {
    hide NewOrigin;
  }

  lemma GreetFormed(s: State, k: nat, o: nat)
    requires Formed(s) && k < |s.sockets| && OriginAt(s.homes, k, o)
    ensures Formed(Greet(s, k, o))
  {
    hide ResponseEvents;
  }

  ghost predicate SameButSent(s: State, w: State) {
    && |w.origins| == |s.origins|
    && forall i :: 0 <= i < |s.origins| ==> w.origins[i] == s.origins[i].(sent := w.origins[i].sent)
  }

  ghost predicate OnlyWrote(s: State, w: State) {
    w == s.(origins := w.origins, trace := w.trace) && SameButSent(s, w)
  }

  lemma WriteOnly(s: State, o: nat, wire: Wire, tag: Option<nat>)
    requires Formed(s) && o < |s.origins|
    ensures OnlyWrote(s, Write(s, o, wire, tag))
  {
    assert |s.homes| == |s.origins| && s.homes[o] < |s.sockets| == |s.calls|;
    hide Formed;
    var w := Write(s, o, wire, tag);
    assert w.origins == s.origins || w.origins == s.origins[o := s.origins[o].(sent := w.origins[o].sent)];
    assert w == s.(origins := w.origins, trace := w.trace);
    hide Write, Writable;
  }

  lemma WriteShape(s: State, o: nat, wire: Wire, tag: Option<nat>)
    requires Formed(s) && o < |s.origins|
    ensures OnlyWrote(s, Write(s, o, wire, tag))
    ensures Formed(Write(s, o, wire, tag))
  {
    WriteOnly(s, o, wire, tag);
    hide Write;
  }

  lemma AnnounceShape(s: State, o: nat)
    requires Formed(s) && o < |s.origins|
    ensures OnlyWrote(s, AnnounceSpeech(s, o))
  {
    hide CallerEvents, FindSpeechStarted;
  }

  lemma BeginTurnFormed(s: State, k: nat, o: nat)
    requires Formed(s) && k < |s.sockets| && OriginAt(s.homes, k, o)
    ensures Formed(BeginTurn(s, k, o))
  {
    AnnounceShape(s, o);
    hide AnnounceSpeech;
  }

  lemma CompleteTurnFormed(s: State, t: nat)
    requires Formed(s) && t < |s.tasks| && s.tasks[t].body.Timer?
    ensures Formed(CompleteTurn(s, t))
  {
    hide CallerEvents, WithoutSpeechStarted;
  }

  lemma ContinueFormed(s: State, t: nat, o: nat, body: Body)
    requires Formed(s) && t < |s.tasks| && BodyAt(s.homes, s.tasks[t].socket, body)
    ensures Formed(Continue(s, t, o, body))
  {
  }

  lemma FinishFormed(s: State, t: nat, o: nat, complete: bool)
    requires Formed(s) && t < |s.tasks| && o < |s.origins|
    ensures Formed(Finish(s, t, o, complete))
  {
  }

  lemma CloseSocketFormed(s: State, k: nat)
    requires Formed(s) && k < |s.sockets|
    ensures Formed(CloseSocket(s, k))
  {
  }

  lemma CallerStageFormed(s: State, t: nat)
    requires Formed(s) && t < |s.tasks| && s.tasks[t].body.CallerStage?
    ensures Formed(OnCallerStage(s, t))
  {
    var CallerStage(o, rest) := s.tasks[t].body;
    assert BodyAt(s.homes, s.tasks[t].socket, s.tasks[t].body);
    if rest == [] || s.tasks[t].aborted {
      ContinueFormed(s, t, o, ModeStage(o));
    } else {
      WriteShape(s, o, Json(rest[0]), None);
      hide Write;
      ContinueFormed(Write(s, o, Json(rest[0]), None), t, o,
                     if |rest| == 1 then ModeStage(o) else CallerStage(o, rest[1..]));
    }
  }

  lemma ProtocolErrorFormed(s: State, t: nat, o: nat, complete: bool)
    requires Formed(s) && t < |s.tasks| && o < |s.origins|
    ensures Formed(Finish(Write(s, o, InvalidJson, None), t, o, complete))
  {
    WriteShape(s, o, InvalidJson, None);
    hide Write;
    FinishFormed(Write(s, o, InvalidJson, None), t, o, complete);
  }

  lemma ModeStageFormed(s: State, t: nat)
    requires Formed(s) && t < |s.tasks| && s.tasks[t].body.ModeStage?
    ensures Formed(OnModeStage(s, t))
  {
    var o := s.tasks[t].body.origin;
    assert BodyAt(s.homes, s.tasks[t].socket, s.tasks[t].body) && o < |s.origins| && s.tasks[t].socket < |s.sockets|;
    FinishFormed(s, t, o, false);
    FinishFormed(s, t, o, Writable(s, o));
    CloseSocketFormed(Finish(s, t, o, Writable(s, o)), s.tasks[t].socket);
    ProtocolErrorFormed(s, t, o, Writable(s, o));
    ContinueFormed(s, t, o, ResponseStage(o, ResponseEvents(s.origins[o].events)));
    hide Formed, Write, ResponseEvents, Finish, Continue, CloseSocket, Writable;
  }

  lemma ResponseStageFormed(s: State, t: nat)
    requires Formed(s) && t < |s.tasks| && s.tasks[t].body.ResponseStage?
    ensures Formed(OnResponseStage(s, t))
  {
    var ResponseStage(o, rest) := s.tasks[t].body;
    assert BodyAt(s.homes, s.tasks[t].socket, s.tasks[t].body);
    if rest == [] {
      FinishFormed(s, t, o, Writable(s, o) && !s.tasks[t].aborted);
    } else if s.tasks[t].aborted || Count(s.generations, s.calls[s.tasks[t].socket]) != s.origins[o].generation {
      FinishFormed(s, t, o, false);
    } else {
      var w := Write(s, o, Json(rest[0]), Some(s.origins[o].generation));
      WriteShape(s, o, Json(rest[0]), Some(s.origins[o].generation));
      hide Write;
      FinishFormed(w, t, o, Writable(s, o));
      ContinueFormed(w, t, o, ResponseStage(o, rest[1..]));
    }
  }

  lemma CloseFormed(s: State, k: nat)
    requires Formed(s) && k < |s.sockets|
    ensures Formed(OnClose(s, k))
  {
  }

  lemma StopFormed(s: State)
    requires Formed(s)
    ensures Formed(OnStop(s))
  {
  }

  lemma ConnectFormed(s: State, c: string, authorised: bool)
    requires Formed(s)
    ensures Formed(OnConnect(s, c, authorised))
  {
  }

  lemma FinallyFormed(s: State, t: nat)
    requires Formed(s) && t < |s.tasks|
    ensures Formed(OnFinally(s, t))
  {
  }

  lemma MessageFormed(s: State, k: nat, m: Message)
    requires Formed(s) && k < |s.sockets|
    ensures Formed(OnMessage(s, k, m))
  {
    CloseSocketFormed(s, k);
    if s.calls[k] in s.scenarios && m.AppendAudio? {
      if s.sockets[k].pending.Some? {
        RestartFormed(s, k);
      } else {
        StartTurnFormed(s, k);
      }
    } else if s.calls[k] in s.scenarios && m.ResponseCreate? {
      StartGreetingFormed(s, k);
    }
  }

  lemma FreeFormed(s: State, k: nat)
    requires Formed(s) && k < |s.sockets|
    ensures Formed(s.(sockets := s.sockets[k := s.sockets[k].(handler := Free)]))
  {
  }

  lemma HandlerFormed(s: State, k: nat)
    requires Formed(s) && k < |s.sockets|
    ensures Formed(OnHandler(s, k))
  {
    var handler := s.sockets[k].handler;
    assert SocketAt(s.homes, |s.tasks|, k, s.sockets[k]);
    FreeFormed(s, k);
    hide Formed, Greet, BeginTurn;
    match handler
    case Greeting(o) => GreetFormed(s, k, o);
    case StartingTurn(o) => BeginTurnFormed(s, k, o);
    case _ =>
  }

  lemma TaskFormed(s: State, t: nat)
    requires Formed(s) && t < |s.tasks| && IsStage(s.tasks[t].body)
    ensures Formed(Step(s, TaskResumes(t)))
  {
    match s.tasks[t].body
    case CallerStage(_, _) => CallerStageFormed(s, t);
    case ModeStage(_) => ModeStageFormed(s, t);
    case _ => ResponseStageFormed(s, t);
  }

  lemma UntrackedFormed(s: State, t: nat)
    requires Formed(s) && t < |s.tasks|
    ensures Formed(OnUntracked(s, t))
  {
  }

  lemma StepFormed(s: State, e: Event)
    requires Formed(s) && Enabled(s, e)
    ensures Formed(Step(s, e))
  {
    hide OnMessage, OnHandler, OnClose, OnConnect, OnStop, OnFinally, CompleteTurn, OnUntracked;
    match e
    case Connect(c, authorised) => ConnectFormed(s, c, authorised);
    case PeerCloses(k) => CloseSocketFormed(s, k);
    case CloseFires(k) => CloseFormed(s, k);
    case Deliver(k, m) => MessageFormed(s, k, m);
    case ResumeHandler(k) => HandlerFormed(s, k);
    case TimerWakes(t) => CompleteTurnFormed(s, t);
    case TaskResumes(t) => TaskFormed(s, t);
    case FinallyRuns(t) => FinallyFormed(s, t);
    case TaskUntracked(t) => UntrackedFormed(s, t);
    case StopServer => StopFormed(s);
    case _ =>
  }

  /** What a step of a response task leaves alone: all but its own body, what its origin has sent and where it is,
    and whether its socket is writable. */
  ghost predicate StageShape(s: State, r: State, t: nat)
    requires t < |s.tasks|
  {
    && |r.tasks| == |s.tasks| && |r.sockets| == |s.sockets| && |r.origins| == |s.origins|
    && r == s.(tasks := s.tasks[t := s.tasks[t].(body := r.tasks[t].body)], sockets := r.sockets,
               origins := r.origins, trace := r.trace)
    && (IsStage(r.tasks[t].body) || r.tasks[t].body.Ended?)
    && (forall k :: 0 <= k < |s.sockets| ==> r.sockets[k] == s.sockets[k].(writable := r.sockets[k].writable))
    && (forall o :: 0 <= o < |s.origins| ==>
          r.origins[o] == s.origins[o].(sent := r.origins[o].sent, place := r.origins[o].place))
  }

  lemma ContinueShape(s: State, w: State, t: nat, o: nat, body: Body)
    requires OnlyWrote(s, w) && t < |s.tasks| && (IsStage(body) || body.Ended?)
    ensures StageShape(s, Continue(w, t, o, body), t)
  {
  }

  lemma FinishShape(s: State, w: State, t: nat, o: nat, complete: bool)
    requires OnlyWrote(s, w) && t < |s.tasks| && o < |s.origins|
    ensures StageShape(s, Finish(w, t, o, complete), t)
  {
  }

  lemma CloseShape(s: State, r: State, t: nat, k: nat)
    requires t < |s.tasks| && StageShape(s, r, t) && k < |s.sockets|
    ensures StageShape(s, CloseSocket(r, k), t)
  {
  }

  lemma CallerStageShape(s: State, t: nat)
    requires Formed(s) && t < |s.tasks| && s.tasks[t].body.CallerStage?
    ensures StageShape(s, OnCallerStage(s, t), t)
  {
    var CallerStage(o, rest) := s.tasks[t].body;
    assert BodyAt(s.homes, s.tasks[t].socket, s.tasks[t].body) && o < |s.origins|;
    ContinueShape(s, s, t, o, ModeStage(o));
    if rest != [] {
      WriteShape(s, o, Json(rest[0]), None);
      ContinueShape(s, Write(s, o, Json(rest[0]), None), t, o,
                    if |rest| == 1 then ModeStage(o) else CallerStage(o, rest[1..]));
    }
    hide Formed, Write, StageShape, Continue;
  }

  lemma ModeStageShape(s: State, t: nat)
    requires Formed(s) && t < |s.tasks| && s.tasks[t].body.ModeStage?
    ensures StageShape(s, OnModeStage(s, t), t)
  {
    var o, k := s.tasks[t].body.origin, s.tasks[t].socket;
    assert BodyAt(s.homes, k, s.tasks[t].body) && o < |s.origins| && k < |s.sockets|;
    WriteShape(s, o, InvalidJson, None);
    FinishShape(s, Write(s, o, InvalidJson, None), t, o, Writable(s, o));
    FinishShape(s, s, t, o, false);
    FinishShape(s, s, t, o, Writable(s, o));
    CloseShape(s, Finish(s, t, o, Writable(s, o)), t, k);
    ContinueShape(s, s, t, o, ResponseStage(o, ResponseEvents(s.origins[o].events)));
    hide Formed, ResponseEvents, StageShape, Finish, Continue, Write, CloseSocket, Writable;
  }

  lemma ResponseStageShape(s: State, t: nat)
    requires Formed(s) && t < |s.tasks| && s.tasks[t].body.ResponseStage?
    ensures StageShape(s, OnResponseStage(s, t), t)
  {
    var ResponseStage(o, rest) := s.tasks[t].body;
    assert BodyAt(s.homes, s.tasks[t].socket, s.tasks[t].body) && o < |s.origins|;
    FinishShape(s, s, t, o, false);
    FinishShape(s, s, t, o, Writable(s, o) && !s.tasks[t].aborted);
    if rest != [] {
      var w := Write(s, o, Json(rest[0]), Some(s.origins[o].generation));
      WriteShape(s, o, Json(rest[0]), Some(s.origins[o].generation));
      FinishShape(s, w, t, o, Writable(s, o));
      ContinueShape(s, w, t, o, ResponseStage(o, rest[1..]));
    }
    hide Formed, Write, StageShape, Continue, Finish, Writable;
  }

  lemma TaskShape(s: State, t: nat)
    requires Formed(s) && t < |s.tasks| && IsStage(s.tasks[t].body)
    ensures StageShape(s, Step(s, TaskResumes(t)), t)
  {
    hide StageShape, OnCallerStage, OnModeStage, OnResponseStage;
    match s.tasks[t].body
    case CallerStage(_, _) => CallerStageShape(s, t);
    case ModeStage(_) => ModeStageShape(s, t);
    case _ => ResponseStageShape(s, t);
  }

  /** The state after these events, or `None` when one of them was not possible. */
  function Run(events: seq<Event>): (r: Option<State>)
    ensures r.Some? ==> Formed(r.value)
  {
    if events == [] then Some(Initial())
    else
      match Run(events[..|events| - 1])
      case None => None
      case Some(s) =>
        var e := events[|events| - 1];
        if Enabled(s, e) then StepFormed(s, e); Some(Step(s, e)) else None
  }
}
