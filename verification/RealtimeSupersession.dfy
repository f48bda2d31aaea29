/** Supersession: what earlier turns and greetings of a call still send once new caller audio has taken the call over. */
module RealtimeSupersession {
  import opened Options
  import opened Scripts
  import opened RealtimeModel
  import opened RealtimeForm
  import opened RealtimeTimers
  import opened RealtimeTurns
  import opened RealtimeTrace
  import opened RealtimeResults
  import opened RealtimeOrder
  import opened RealtimeAccounts

  // ---------------------------------------------------------------- nothing goes back

  predicate Later(before: Place, after: Place) {
    match before
    case InHandler => true
    case InPending => after.InPending? || after.InTask?
    case InTask(_) => after == before || after.Over?
    case Over(_) => after == before
  }

  /** A greeting that leaves its handler has joined the call's current generation. */
  predicate Joins(s: State, r: State, i: nat)
    requires i < |s.origins| <= |r.origins|
  {
    s.origins[i].greeting && s.origins[i].place.InHandler? && !r.origins[i].place.InHandler? ==>
      i < |s.homes| && s.homes[i] < |s.calls| && r.origins[i].generation == Count(s.generations, s.calls[s.homes[i]])
  }

  ghost predicate TasksForward(before: seq<Task>, after: seq<Task>) {
    |before| <= |after| && forall t :: 0 <= t < |before| && before[t].aborted ==> after[t].aborted
  }

  ghost predicate SocketsForward(before: seq<Socket>, after: seq<Socket>) {
    |before| <= |after| && forall k :: 0 <= k < |before| && after[k].writable ==> before[k].writable
  }

  ghost predicate OriginsForward(s: State, r: State) {
    |s.origins| <= |r.origins|
    && forall i :: 0 <= i < |s.origins| ==> Later(s.origins[i].place, r.origins[i].place) && Joins(s, r, i)
  }

  /** Aborts stay, sockets only stop being writable, and origins move on. */
  ghost predicate Forward(s: State, r: State) {
    TasksForward(s.tasks, r.tasks) && SocketsForward(s.sockets, r.sockets) && OriginsForward(s, r)
  }

  lemma AbortForward(tasks: seq<Task>, a: Option<nat>)
    ensures TasksForward(tasks, AbortIn(tasks, a))
  {
  }

  /** The origins there were stay as they are. */
  lemma SameForward(s: State, r: State)
    requires s.origins <= r.origins && TasksForward(s.tasks, r.tasks) && SocketsForward(s.sockets, r.sockets)
    ensures Forward(s, r)
  {
    hide TasksForward, SocketsForward;
  }

  lemma SocketForward(sockets: seq<Socket>, k: nat, socket: Socket)
    requires k < |sockets| && (socket.writable ==> sockets[k].writable)
    ensures SocketsForward(sockets, sockets[k := socket])
  {
  }

  lemma NothingForward(s: State)
    ensures TasksForward(s.tasks, s.tasks) && SocketsForward(s.sockets, s.sockets)
  {
  }

  lemma RestartForward(s: State, k: nat)
    requires Formed(s) && k < |s.sockets| && s.sockets[k].pending.Some?
    ensures Forward(s, RestartTimer(s, k))
  {
    var r := RestartTimer(s, k);
    RestartRenews(s, k);
    AbortForward(s.tasks, PendingTimer(s.sockets[k]));
    SocketForward(s.sockets, k, r.sockets[k]);
    hide AbortIn, SilenceMs, PendingTimer, Formed, RestartTimer, Forward;
    SameForward(s, r);
  }

  lemma StartForward(s: State, k: nat)
    requires Formed(s) && k < |s.sockets| && s.calls[k] in s.scenarios
    ensures Forward(s, StartTurn(s, k)) && Forward(s, StartGreeting(s, k))
  {
    hide AbortIn, NewOrigin, ResolveTool, Forward, TasksForward, SocketsForward;
    var turn, greeting := StartTurn(s, k), StartGreeting(s, k);
    AbortForward(s.tasks, s.sockets[k].controller);
    NothingForward(s);
    SocketForward(s.sockets, k, turn.sockets[k]);
    SocketForward(s.sockets, k, greeting.sockets[k]);
    hide Formed;
    SameForward(s, turn);
    SameForward(s, greeting);
  }

  lemma MessageForward(s: State, k: nat, m: Message)
    requires Formed(s) && k < |s.sockets|
    ensures Forward(s, OnMessage(s, k, m))
  {
    hide RestartTimer, StartTurn, StartGreeting;
    if s.calls[k] in s.scenarios && m.AppendAudio? && s.sockets[k].pending.Some? {
      RestartForward(s, k);
      hide Forward, Formed;
    } else if s.calls[k] in s.scenarios && (m.AppendAudio? || m.ResponseCreate?) {
      StartForward(s, k);
      hide Forward, Formed;
    } else {
      hide Formed, Forward, TasksForward, SocketsForward;
      var r := OnMessage(s, k, m);
      NothingForward(s);
      SocketForward(s.sockets, k, r.sockets[k]);
      SameForward(s, r);
    }
  }

  lemma GreetForward(s: State, k: nat, o: nat)
    requires Formed(s) && k < |s.sockets| && OriginAt(s.homes, k, o) && s.origins[o].place.InHandler?
    ensures Forward(s, Greet(s, k, o))
  {
    assert |s.calls| == |s.sockets| && |s.homes| == |s.origins|;
    AbortForward(s.tasks, s.sockets[k].controller);
    hide AbortIn, ResponseEvents, Formed, Tracked;
  }

  lemma BeginForward(s: State, k: nat, o: nat)
    requires Formed(s) && k < |s.sockets| && OriginAt(s.homes, k, o)
    requires s.origins[o].place.InHandler? && !s.origins[o].greeting
    ensures Forward(s, BeginTurn(s, k, o))
  {
    AnnounceShape(s, o);
    hide AnnounceSpeech, SilenceMs, Formed, Tracked;
  }

  /** What the handler and the pending turn of a socket hold. */
  lemma SocketHolds(s: State, k: nat)
    requires Turns(s) && k < |s.sockets|
    ensures var handler := s.sockets[k].handler;
      handler.Greeting? || handler.StartingTurn? ==>
        && handler.origin < |s.origins| && s.origins[handler.origin].place.InHandler?
        && s.origins[handler.origin].greeting == handler.Greeting?
    ensures s.sockets[k].pending.Some? ==>
      var o := s.sockets[k].pending.value.origin; o < |s.origins| && s.origins[o].place.InPending?
  {
    hide AllSound;
  }

  lemma HandlerForward(s: State, k: nat)
    requires Formed(s) && Turns(s) && k < |s.sockets|
    ensures Forward(s, OnHandler(s, k))
  {
    var handler := s.sockets[k].handler;
    assert SocketAt(s.homes, |s.tasks|, k, s.sockets[k]);
    hide Greet, BeginTurn, Turns, Formed, Forward, TasksForward, SocketsForward;
    SocketHolds(s, k);
    if handler.Greeting? {
      GreetForward(s, k, handler.origin);
    } else if handler.StartingTurn? {
      BeginForward(s, k, handler.origin);
    } else {
      NothingForward(s);
      SocketForward(s.sockets, k, s.sockets[k].(handler := Free));
      SameForward(s, OnHandler(s, k));
    }
  }

  lemma CompleteForward(s: State, t: nat)
    requires Formed(s) && t < |s.tasks| && s.tasks[t].body.Timer? && s.tasks[t].socket < |s.sockets|
    requires s.tasks[t].body.origin < |s.origins| && s.origins[s.tasks[t].body.origin].place.InPending?
    ensures Forward(s, CompleteTurn(s, t))
  {
    AbortForward(s.tasks[t := s.tasks[t].(body := Settled)], s.sockets[s.tasks[t].socket].controller);
    hide AbortIn, CallerEvents, WithoutSpeechStarted, Formed, Tracked;
  }

  lemma SettleForward(s: State, t: nat)
    requires t < |s.tasks|
    ensures Forward(s, s.(tasks := s.tasks[t := s.tasks[t].(body := Settled)]))
  {
    NothingForward(s);
    hide Forward, SocketsForward;
    SameForward(s, s.(tasks := s.tasks[t := s.tasks[t].(body := Settled)]));
  }

  lemma TimerForward(s: State, t: nat)
    requires Formed(s) && Turns(s) && t < |s.tasks| && s.tasks[t].body.Timer?
    ensures Forward(s, OnTimer(s, t))
  {
    var k, o := s.tasks[t].socket, s.tasks[t].body.origin;
    assert k < |s.sockets| && BodyAt(s.homes, k, s.tasks[t].body) && |s.homes| == |s.origins|;
    hide CompleteTurn, Formed, Turns, Forward;
    SocketHolds(s, k);
    if s.sockets[k].pending.Some? && s.sockets[k].pending.value.origin == o && !s.tasks[t].aborted {
      CompleteForward(s, t);
    } else {
      SettleForward(s, t);
    }
  }

  lemma MoveForward(s: State, r: State, t: nat, o: nat, move: Move)
    requires t < |s.tasks| && o < |s.origins| == |s.homes| && s.homes[o] < |s.sockets|
    requires Outcome(s, r, t, o, move) && s.origins[o].place.InTask?
    requires move.origin.place == s.origins[o].place || move.origin.place.Over?
    ensures Forward(s, r)
  {
  }

  lemma MovePlace(s: State, t: nat)
    requires Formed(s) && t < |s.tasks| && IsStage(s.tasks[t].body) && OriginOf(s.tasks[t].body).value < |s.origins|
    ensures var before, after := s.origins[OriginOf(s.tasks[t].body).value].place, MoveOf(s, t).origin.place;
      after == before || after.Over?
  {
    hide Formed, ResponseEvents;
  }

  lemma TaskForward(s: State, t: nat)
    requires Formed(s) && Turns(s) && Enabled(s, TaskResumes(t))
    ensures Forward(s, Step(s, TaskResumes(t)))
  {
    assert t < |s.tasks| && IsStage(s.tasks[t].body);
    hide Formed, Turns, Step, Enabled, AtPoint, Outcome, Forward, Script, Plan, Remaining, MoveOf;
    StageOrigin(s, t);
    TaskMoves(s, t);
    MovePlace(s, t);
    MoveForward(s, Step(s, TaskResumes(t)), t, OriginOf(s.tasks[t].body).value, MoveOf(s, t));
  }

  lemma CloseForward(s: State, k: nat)
    requires Formed(s) && k < |s.sockets|
    ensures Forward(s, OnClose(s, k))
  {
    AbortForward(s.tasks, s.sockets[k].controller);
    AbortForward(AbortIn(s.tasks, s.sockets[k].controller), PendingTimer(s.sockets[k]));
    hide AbortIn, PendingTimer, Formed;
  }

  lemma QuietForward(s: State, e: Event)
    requires Formed(s) && Enabled(s, e)
    requires !e.Deliver? && !e.ResumeHandler? && !e.TimerWakes? && !e.TaskResumes? && !e.CloseFires?
    ensures Forward(s, Step(s, e))
  {
    var r := Step(s, e);
    assert r.origins == s.origins && TasksForward(s.tasks, r.tasks) && SocketsForward(s.sockets, r.sockets);
    hide Forward, Formed, Step, TasksForward, SocketsForward;
    SameForward(s, r);
  }

  /** In every step aborts stay, sockets only stop being writable, and origins move on. */
  lemma StepForward(s: State, e: Event)
    requires Formed(s) && Turns(s) && Enabled(s, e)
    ensures Forward(s, Step(s, e))
  {
    hide OnMessage, OnHandler, OnTimer, OnClose, Formed, Turns, Forward;
    match e
    case Deliver(k, m) => MessageForward(s, k, m);
    case ResumeHandler(k) => HandlerForward(s, k);
    case TimerWakes(t) => TimerForward(s, t);
    case TaskResumes(t) => TaskForward(s, t); hide Step;
    case CloseFires(k) => CloseForward(s, k);
    case _ => hide Step; QuietForward(s, e);
  }

  // ---------------------------------------------------------------- waiting origins are where they say

  /** An origin that waits in a handler or as a pending turn is the one its own socket holds. */
  ghost predicate Held(sockets: seq<Socket>, homes: seq<nat>, origins: seq<Origin>) {
    && |homes| == |origins|
    && forall o :: 0 <= o < |origins| ==>
         && homes[o] < |sockets|
         && (origins[o].place.InHandler? ==>
               sockets[homes[o]].handler == if origins[o].greeting then Greeting(o) else StartingTurn(o))
         && (origins[o].place.InPending? ==>
               sockets[homes[o]].pending.Some? && sockets[homes[o]].pending.value.origin == o)
  }

  /** Socket `k` alone may change what it holds, and only for origins that leave it or come to it. */
  lemma HeldMoves(s: State, r: State, k: nat)
    requires Held(s.sockets, s.homes, s.origins) && k < |s.sockets| <= |r.sockets|
    requires |r.homes| == |r.origins| == |s.origins| && r.homes == s.homes
    requires forall i :: 0 <= i < |s.sockets| && i != k ==>
      r.sockets[i].handler == s.sockets[i].handler && r.sockets[i].pending == s.sockets[i].pending
    requires forall o :: 0 <= o < |s.origins| && s.homes[o] != k ==>
      r.origins[o].greeting == s.origins[o].greeting && r.origins[o].place == s.origins[o].place
    requires forall o :: 0 <= o < |s.origins| && s.homes[o] == k ==>
      && (r.origins[o].place.InHandler? ==>
            r.sockets[k].handler == if r.origins[o].greeting then Greeting(o) else StartingTurn(o))
      && (r.origins[o].place.InPending? ==> r.sockets[k].pending.Some? && r.sockets[k].pending.value.origin == o)
    ensures Held(r.sockets, r.homes, r.origins)
  {
  }

  /** No socket changes what it holds, and no origin starts to wait. */
  lemma HeldStays(s: State, r: State)
    requires Held(s.sockets, s.homes, s.origins) && |s.sockets| <= |r.sockets|
    requires r.homes == s.homes && |r.origins| == |s.origins|
    requires forall i :: 0 <= i < |s.sockets| ==>
      r.sockets[i].handler == s.sockets[i].handler && r.sockets[i].pending == s.sockets[i].pending
    requires forall o :: 0 <= o < |s.origins| ==>
      && r.origins[o].greeting == s.origins[o].greeting
      && (r.origins[o].place == s.origins[o].place || r.origins[o].place.InTask? || r.origins[o].place.Over?)
    ensures Held(r.sockets, r.homes, r.origins)
  {
  }

  /** A new origin waits in the handler of socket `k`, which was free. */
  lemma HeldJoins(s: State, r: State, k: nat)
    requires Held(s.sockets, s.homes, s.origins) && k < |s.sockets| == |r.sockets| && s.sockets[k].handler.Free?
    requires r.homes == s.homes + [k] && |r.origins| == |s.origins| + 1 && s.origins <= r.origins
    requires var origin := r.origins[|s.origins|];
      && origin.place.InHandler?
      && r.sockets[k].handler == (if origin.greeting then Greeting(|s.origins|) else StartingTurn(|s.origins|))
    requires r.sockets[k].pending == s.sockets[k].pending
    requires forall i :: 0 <= i < |s.sockets| && i != k ==> r.sockets[i] == s.sockets[i]
    ensures Held(r.sockets, r.homes, r.origins)
  {
  }

  lemma StartHeld(s: State, k: nat)
    requires Formed(s) && Held(s.sockets, s.homes, s.origins) && k < |s.sockets| && s.sockets[k].handler.Free?
    requires s.calls[k] in s.scenarios
    ensures var r := StartTurn(s, k); Held(r.sockets, r.homes, r.origins)
    ensures var r := StartGreeting(s, k); Held(r.sockets, r.homes, r.origins)
  {
    hide Held, Formed, AbortIn, ResolveTool, Script;
    HeldJoins(s, StartTurn(s, k), k);
    HeldJoins(s, StartGreeting(s, k), k);
  }

  lemma RestartHeld(s: State, k: nat)
    requires Formed(s) && Held(s.sockets, s.homes, s.origins) && k < |s.sockets| && s.sockets[k].pending.Some?
    ensures var r := RestartTimer(s, k); Held(r.sockets, r.homes, r.origins)
  {
    RestartRenews(s, k);
    assert RestartTimer(s, k).homes == s.homes;
    hide Formed, RestartTimer;
  }

  lemma UpdateHeld(s: State, k: nat, tools: seq<SessionTool>)
    requires Held(s.sockets, s.homes, s.origins) && k < |s.sockets| && s.sockets[k].handler.Free?
    ensures Held(s.sockets[k := s.sockets[k].(tools := tools, handler := Updating)], s.homes, s.origins)
  {
  }

  lemma AudioHeld(s: State, k: nat)
    requires Formed(s) && Held(s.sockets, s.homes, s.origins) && k < |s.sockets| && s.sockets[k].handler.Free?
    requires s.calls[k] in s.scenarios
    ensures var r := OnMessage(s, k, AppendAudio); Held(r.sockets, r.homes, r.origins)
  {
    hide Held, RestartTimer, StartTurn;
    if s.sockets[k].pending.Some? {
      assert OnMessage(s, k, AppendAudio) == RestartTimer(s, k);
      RestartHeld(s, k);
    } else {
      assert OnMessage(s, k, AppendAudio) == StartTurn(s, k);
      StartHeld(s, k);
    }
    hide Formed, OnMessage;
  }

  lemma MessageHeld(s: State, k: nat, m: Message)
    requires Formed(s) && Held(s.sockets, s.homes, s.origins) && k < |s.sockets| && s.sockets[k].handler.Free?
    ensures var r := OnMessage(s, k, m); Held(r.sockets, r.homes, r.origins)
  {
    assert |s.calls| == |s.sockets| && |s.homes| == |s.origins|;
    hide StartTurn, StartGreeting, RestartTimer, Held, Formed;
    if s.calls[k] in s.scenarios && m.AppendAudio? {
      AudioHeld(s, k);
    } else if s.calls[k] in s.scenarios && m.ResponseCreate? {
      StartHeld(s, k);
    } else if m.SessionUpdate? && s.calls[k] in s.scenarios {
      UpdateHeld(s, k, m.tools);
    } else {
      HeldStays(s, OnMessage(s, k, m));
    }
  }

  lemma GreetHeld(s: State, k: nat, o: nat)
    requires Formed(s) && Held(s.sockets, s.homes, s.origins) && k < |s.sockets| && s.sockets[k].handler == Greeting(o)
    requires OriginAt(s.homes, k, o)
    ensures var r := Greet(s, k, o); Held(r.sockets, r.homes, r.origins)
  {
    hide AbortIn, ResponseEvents, Formed, Tracked;
    HeldMoves(s, Greet(s, k, o), k);
  }

  lemma BeginHeld(s: State, k: nat, o: nat)
    requires Formed(s) && Held(s.sockets, s.homes, s.origins) && k < |s.sockets|
    requires s.sockets[k].handler == StartingTurn(o) && s.sockets[k].pending.None? && OriginAt(s.homes, k, o)
    ensures var r := BeginTurn(s, k, o); Held(r.sockets, r.homes, r.origins)
  {
    AnnounceShape(s, o);
    hide AnnounceSpeech, SilenceMs, Formed, Tracked;
    HeldMoves(s, BeginTurn(s, k, o), k);
  }

  lemma HandlerHeld(s: State, k: nat)
    requires Formed(s) && Live(s) && Held(s.sockets, s.homes, s.origins) && k < |s.sockets|
    requires !s.sockets[k].handler.Free?
    ensures var r := OnHandler(s, k); Held(r.sockets, r.homes, r.origins)
  {
    var handler := s.sockets[k].handler;
    assert SocketAt(s.homes, |s.tasks|, k, s.sockets[k]);
    assert handler.StartingTurn? ==> s.sockets[k].pending.None?;
    hide Greet, BeginTurn, Live, Formed;
    if handler.Greeting? {
      GreetHeld(s, k, handler.origin);
    } else if handler.StartingTurn? {
      BeginHeld(s, k, handler.origin);
    }
  }

  lemma CompleteHeld(s: State, t: nat)
    requires Formed(s) && Held(s.sockets, s.homes, s.origins) && t < |s.tasks| && s.tasks[t].body.Timer?
    requires s.tasks[t].socket < |s.sockets| && s.tasks[t].body.origin < |s.origins|
    requires s.sockets[s.tasks[t].socket].pending.Some?
    requires s.sockets[s.tasks[t].socket].pending.value.origin == s.tasks[t].body.origin
    requires s.homes[s.tasks[t].body.origin] == s.tasks[t].socket
    ensures var r := CompleteTurn(s, t); Held(r.sockets, r.homes, r.origins)
  {
    hide AbortIn, CallerEvents, WithoutSpeechStarted, Formed, Tracked;
    HeldMoves(s, CompleteTurn(s, t), s.tasks[t].socket);
  }

  lemma TimerHeld(s: State, t: nat)
    requires Formed(s) && Held(s.sockets, s.homes, s.origins) && t < |s.tasks| && s.tasks[t].body.Timer?
    ensures var r := OnTimer(s, t); Held(r.sockets, r.homes, r.origins)
  {
    var k, o := s.tasks[t].socket, s.tasks[t].body.origin;
    assert k < |s.sockets| && BodyAt(s.homes, k, s.tasks[t].body) && |s.homes| == |s.origins|;
    hide CompleteTurn, Formed;
    if s.sockets[k].pending.Some? && s.sockets[k].pending.value.origin == o {
      CompleteHeld(s, t);
      hide Held;
    }
  }

  lemma TaskHeld(s: State, t: nat)
    requires Formed(s) && Held(s.sockets, s.homes, s.origins) && t < |s.tasks| && IsStage(s.tasks[t].body)
    ensures var r := Step(s, TaskResumes(t)); Held(r.sockets, r.homes, r.origins)
  {
    TaskMoves(s, t);
    var o := OriginOf(s.tasks[t].body).value;
    assert MoveOf(s, t).origin.place == s.origins[o].place || MoveOf(s, t).origin.place.Over?;
    assert MoveOf(s, t).origin.greeting == s.origins[o].greeting;
    hide Formed, Step, MoveOf, Held;
    HeldStays(s, Step(s, TaskResumes(t)));
  }

  lemma QuietHeld(s: State, e: Event)
    requires Formed(s) && Held(s.sockets, s.homes, s.origins) && Enabled(s, e)
    requires !e.Deliver? && !e.ResumeHandler? && !e.TimerWakes? && !e.TaskResumes?
    ensures var r := Step(s, e); Held(r.sockets, r.homes, r.origins)
  {
    var r := Step(s, e);
    assert r.homes == s.homes && r.origins == s.origins;
    assert |s.sockets| <= |r.sockets| && forall i :: 0 <= i < |s.sockets| ==>
      r.sockets[i].handler == s.sockets[i].handler && r.sockets[i].pending == s.sockets[i].pending;
    assert |s.homes| == |s.origins|;
    hide Held, Step, Formed;
    HeldStays(s, r);
  }

  lemma StepHeld(s: State, e: Event)
    requires Formed(s) && Live(s) && Held(s.sockets, s.homes, s.origins) && Enabled(s, e)
    ensures var r := Step(s, e); Held(r.sockets, r.homes, r.origins)
  {
    hide OnMessage, OnHandler, OnTimer, Formed, Live, Held;
    match e
    case Deliver(k, m) => MessageHeld(s, k, m);
    case ResumeHandler(k) => HandlerHeld(s, k);
    case TimerWakes(t) => TimerHeld(s, t);
    case TaskResumes(t) => TaskHeld(s, t); hide Step;
    case _ => hide Step; QuietHeld(s, e);
  }

  lemma {:induction false} RunHeld(events: seq<Event>)
    requires Run(events).Some?
    ensures var s := Run(events).value; Held(s.sockets, s.homes, s.origins)
  {
    if events != [] {
      RunHeld(events[..|events| - 1]);
      RunLive(events[..|events| - 1]);
      hide Held, Live;
      StepHeld(Run(events[..|events| - 1]).value, events[|events| - 1]);
    }
  }

  // ---------------------------------------------------------------- generations behind the table

  /** Its generation will not change any more. */
  predicate HasJoined(origin: Origin) {
    !(origin.greeting && origin.place.InHandler?)
  }

  ghost predicate OpenOnly(sockets: seq<Socket>) {
    forall k :: 0 <= k < |sockets| && sockets[k].writable ==> sockets[k].open
  }

  /** In the current life of its call no settled origin is ahead of the call's generation; an origin of an earlier life
    sits on a socket that is not writable. */
  predicate DatedAt(s: State, o: nat) {
    && o < |s.homes| == |s.origins| && s.homes[o] < |s.sockets| == |s.calls|
    && var c, origin := s.calls[s.homes[o]], s.origins[o];
    && origin.lifetime <= Count(s.lifetimes, c)
    && (origin.lifetime < Count(s.lifetimes, c) ==> !Writable(s, o))
    && (origin.lifetime == Count(s.lifetimes, c) && HasJoined(origin) ==> origin.generation <= Count(s.generations, c))
  }

  ghost predicate Dated(s: State) {
    OpenOnly(s.sockets) && forall o :: 0 <= o < |s.origins| ==> DatedAt(s, o)
  }

  lemma StepOpenOnly(s: State, e: Event)
    requires Formed(s) && Turns(s) && Enabled(s, e) && OpenOnly(s.sockets)
    ensures OpenOnly(Step(s, e).sockets)
  {
    hide Formed, Turns, AbortIn;
    if e.Connect? || e.CloseFires? || e.Release? {
      hide OnRelease;
      if e.Release? {
        ReleaseSockets(s, e.call);
      }
    } else {
      StepForward(s, e);
      StepKeeps(s, e);
      hide Step, OriginsForward, TasksForward, KeepsTasks;
    }
  }

  lemma ReleaseSockets(s: State, c: string)
    ensures OnRelease(s, c).sockets == s.sockets && OnRelease(s, c).homes == s.homes
    ensures OnRelease(s, c).calls == s.calls && OnRelease(s, c).origins == s.origins
  {
    hide Releasable;
  }

  /** A call that can be released has no writable socket. */
  lemma ReleasedIsMute(s: State, c: string, k: nat)
    requires CountsOpen(s) && OpenOnly(s.sockets) && Releasable(s, c) && k < |s.sockets| && s.calls[k] == c
    ensures !s.sockets[k].writable
  {
    if s.sockets[k].open {
      OpenSocketCounts(s.calls, s.sockets, k);
    }
  }

  lemma ReleaseDated(s: State, c: string)
    requires Formed(s) && Dated(s) && CountsOpen(s)
    ensures forall o :: 0 <= o < |s.origins| ==> DatedAt(OnRelease(s, c), o)
  {
    ReleaseSockets(s, c);
    forall o | 0 <= o < |s.origins| ensures DatedAt(OnRelease(s, c), o) {
      assert DatedAt(s, o);
      if Releasable(s, c) && s.calls[s.homes[o]] == c {
        ReleasedIsMute(s, c, s.homes[o]);
      }
      hide Releasable, CountsOpen, Dated, Formed;
    }
  }

  lemma OriginDated(s: State, e: Event, r: State, o: nat)
    requires !e.Release? && TablesStep(s, e, r) && OriginsKept(s, r) && Forward(s, r) && s.calls <= r.calls
    requires |s.homes| == |s.origins| && |r.calls| == |r.sockets|
    requires o < |s.origins| && DatedAt(s, o)
    ensures DatedAt(r, o)
  {
    assert Later(s.origins[o].place, r.origins[o].place) && Joins(s, r, o);
    assert r.calls[s.homes[o]] == s.calls[s.homes[o]];
    hide TasksForward, OriginsForward;
  }

  lemma NewOriginDated(s: State, e: Event, r: State, o: nat)
    requires TablesStep(s, e, r) && OriginsKept(s, r) && s.calls <= r.calls
    requires |r.calls| == |r.sockets| && |s.origins| <= o < |r.origins|
    ensures DatedAt(r, o)
  {
    hide Releasable;
  }

  lemma StepDated(s: State, e: Event)
    requires Formed(s) && Turns(s) && Enabled(s, e) && Dated(s) && CountsOpen(s)
    ensures Dated(Step(s, e))
  {
    var r := Step(s, e);
    StepOpenOnly(s, e);
    StepTables(s, e);
    StepForward(s, e);
    StepFormed(s, e);
    assert |r.calls| == |r.sockets| && |s.homes| == |s.origins|;
    hide Formed, Turns, Enabled, OpenOnly, CountsOpen, TablesStep, OriginsKept, Forward, DatedAt, OnRelease;
    if e.Release? {
      assert r == OnRelease(s, e.call);
      hide Step;
      ReleaseDated(s, e.call);
      ReleaseSockets(s, e.call);
    } else {
      hide Step;
      forall o | 0 <= o < |r.origins| ensures DatedAt(r, o) {
        if o < |s.origins| {
          OriginDated(s, e, r, o);
        } else {
          NewOriginDated(s, e, r, o);
        }
      }
    }
  }

  lemma {:induction false} RunDated(events: seq<Event>)
    requires Run(events).Some?
    ensures Dated(Run(events).value)
  {
    if events != [] {
      RunDated(events[..|events| - 1]);
      RunTurns(events[..|events| - 1]);
      RunAccounts(events[..|events| - 1]);
      hide Dated, Turns, CountsOpen, TracksTasks;
      StepDated(Run(events[..|events| - 1]).value, events[|events| - 1]);
    }
  }

  // ---------------------------------------------------------------- who puts a frame on the wire

  /** The step put a frame of `o` on the wire. */
  predicate PutsOnWire(s: State, r: State, o: nat) {
    |r.trace| == |s.trace| + 1 && Added(s, r).Sent? && Added(s, r).origin == o
  }

  /** The step is the origin's own and comes to a frame that no generation guards: the announced speech, a caller event
    of a live task, or the broken frame. */
  predicate SaysUnguarded(s: State, e: Event, o: nat) {
    match e
    case ResumeHandler(k) => k < |s.sockets| && s.sockets[k].handler == StartingTurn(o)
    case TaskResumes(t) =>
      && t < |s.tasks| && o < |s.origins| && OriginOf(s.tasks[t].body) == Some(o) && !s.tasks[t].aborted
      && (match s.tasks[t].body
          case CallerStage(_, rest) => rest != []
          case ModeStage(_) => s.origins[o].scenario.mode.ProtocolError?
          case _ => false)
    case _ => false
  }

  /** The step is the origin's own and comes to a response event of the call's current generation. */
  predicate SaysResponse(s: State, e: Event, o: nat) {
    && e.TaskResumes? && e.task < |s.tasks| && o < |s.origins| && s.tasks[e.task].socket < |s.calls|
    && OriginOf(s.tasks[e.task].body) == Some(o) && !s.tasks[e.task].aborted
    && s.tasks[e.task].body.ResponseStage? && s.tasks[e.task].body.rest != []
    && s.origins[o].generation == Count(s.generations, s.calls[s.tasks[e.task].socket])
  }

  lemma BeginSays(s: State, k: nat, o: nat)
    requires Formed(s) && Turns(s) && k < |s.sockets| && s.sockets[k].handler == StartingTurn(o)
    requires OriginAt(s.homes, k, o)
    ensures RecordOf(OnHandler(s, k), o) != RecordOf(s, o) <==> Writable(s, o)
  {
    SocketHolds(s, k);
    assert Sound(o, s.origins[o], s.sockets[s.homes[o]].writable, s.tasks);
    ScriptBegins(s.origins[o]);
    hide FindSpeechStarted, CallerEvents, Turns, Script, SilenceMs, Formed, Plan, AfterSpeech;
  }

  lemma TaskSays(s: State, t: nat, o: nat)
    requires Formed(s) && Turns(s) && t < |s.tasks| && IsStage(s.tasks[t].body) && OriginOf(s.tasks[t].body) == Some(o)
    ensures o < |s.homes| && s.homes[o] < |s.sockets|
    ensures var e := TaskResumes(t);
      RecordOf(Step(s, e), o) != RecordOf(s, o) <==>
        Writable(s, o) && (SaysUnguarded(s, e, o) || SaysResponse(s, e, o))
  {
    StageOrigin(s, t);
    TaskMoves(s, t);
    assert |s.calls| == |s.sockets|;
    hide Formed, Turns, Step, AtPoint, ResponseEvents;
  }

  /** A frame of an origin goes out in exactly these steps. */
  lemma StepSpeaksExactly(s: State, e: Event, o: nat)
    requires Formed(s) && Turns(s) && Enabled(s, e) && o < |s.origins|
    ensures o < |s.homes| && s.homes[o] < |s.sockets|
    ensures PutsOnWire(s, Step(s, e), o) <==>
      Writable(s, o) && (SaysUnguarded(s, e, o) || SaysResponse(s, e, o))
  {
    assert |s.homes| == |s.origins| && s.homes[o] < |s.sockets|;
    StepTrace(s, e);
    if e.TaskResumes? && OriginOf(s.tasks[e.task].body) == Some(o) {
      TaskSays(s, e.task, o);
    } else if e.ResumeHandler? && s.sockets[e.socket].handler == StartingTurn(o) {
      assert SocketAt(s.homes, |s.tasks|, e.socket, s.sockets[e.socket]);
      BeginSays(s, e.socket, o);
    }
    hide Formed, Turns, Step, RecordOf;
  }

  // ---------------------------------------------------------------- response events: silenced on every socket

  /** The response events an origin has sent. */
  function ResponsesBy(trace: seq<Entry>, o: nat): seq<Wire> {
    if trace == [] then []
    else
      var last := trace[|trace| - 1];
      ResponsesBy(trace[..|trace| - 1], o)
      + if last.Sent? && last.origin == o && last.tag.Some? then [last.wire] else []
  }

  lemma ResponsesBySnoc(trace: seq<Entry>, e: Entry, o: nat)
    ensures ResponsesBy(trace + [e], o)
         == ResponsesBy(trace, o) + if e.Sent? && e.origin == o && e.tag.Some? then [e.wire] else []
  {
  }

  /** Its generation is settled, and the call has moved past it. */
  predicate Superseded(s: State, o: nat) {
    && o < |s.origins| && o < |s.homes| && s.homes[o] < |s.calls| && HasJoined(s.origins[o])
    && s.origins[o].generation < Count(s.generations, s.calls[s.homes[o]])
  }

  predicate Silenced(s: State, o: nat) {
    && o < |s.origins| == |s.homes| && s.homes[o] < |s.sockets| == |s.calls|
    && (!Writable(s, o) || Superseded(s, o))
  }

  lemma SilencedStays(s: State, e: Event, r: State, o: nat)
    requires Silenced(s, o) && TablesStep(s, e, r) && OriginsKept(s, r) && Forward(s, r) && s.calls <= r.calls
    requires |r.calls| == |r.sockets|
    requires e.Release? && Releasable(s, e.call) && e.call == s.calls[s.homes[o]] ==> !Writable(s, o)
    ensures Silenced(r, o)
  {
    assert r.calls[s.homes[o]] == s.calls[s.homes[o]];
    hide Releasable, TasksForward, OriginsForward;
  }

  lemma SilencedAddsNothing(s: State, r: State, o: nat, speaker: nat)
    requires Silenced(s, o) && Spoke(s, r, speaker)
    ensures ResponsesBy(r.trace, o) == ResponsesBy(s.trace, o)
  {
    hide RecordOf;
    if r.trace != s.trace {
      ResponsesBySnoc(s.trace, Added(s, r), o);
    }
  }

  lemma SilencedStep(s: State, e: Event, o: nat)
    requires Formed(s) && Turns(s) && Dated(s) && CountsOpen(s) && Enabled(s, e) && Silenced(s, o)
    ensures Silenced(Step(s, e), o) && ResponsesBy(Step(s, e).trace, o) == ResponsesBy(s.trace, o)
  {
    var r := Step(s, e);
    StepTables(s, e);
    StepTrace(s, e);
    StepForward(s, e);
    StepFormed(s, e);
    assert |r.calls| == |r.sockets|;
    if e.Release? && Releasable(s, e.call) && e.call == s.calls[s.homes[o]] {
      ReleasedIsMute(s, e.call, s.homes[o]);
    }
    hide Formed, Turns, Dated, CountsOpen, Step, Enabled, RecordOf, TablesStep, OriginsKept, Spoke, Superseded, Forward;
    hide Releasable;
    SilencedStays(s, e, r, o);
    if TakesOver(s, e) {
      ResponsesBySnoc(s.trace, r.trace[|s.trace|], o);
    } else if Speaker(s, e).Some? {
      SilencedAddsNothing(s, r, o, Speaker(s, e).value);
    }
  }

  lemma RunUnfolds(events: seq<Event>, more: seq<Event>)
    requires more != [] && Run(events + more).Some?
    ensures var before := Run(events + more[..|more| - 1]); var last := more[|more| - 1];
      before.Some? && Enabled(before.value, last) && Run(events + more) == Some(Step(before.value, last))
  {
    assert (events + more)[..|events + more| - 1] == events + more[..|more| - 1];
    hide Enabled, Step;
  }

  /** Whatever happens later - other turns, closes, even a release of the call - a silenced origin sends no response
    event any more. */
  lemma {:induction false} SilencedForever(events: seq<Event>, more: seq<Event>, o: nat)
    requires Run(events).Some? && Run(events + more).Some? && Silenced(Run(events).value, o)
    ensures Silenced(Run(events + more).value, o)
    ensures ResponsesBy(Run(events + more).value.trace, o) == ResponsesBy(Run(events).value.trace, o)
  {
    if more == [] {
      assert events + more == events;
    } else {
      var init := more[..|more| - 1];
      RunUnfolds(events, more);
      RunTurns(events + init);
      RunDated(events + init);
      RunAccounts(events + init);
      hide Run, Turns, Dated, CountsOpen, TracksTasks, Step, ResponsesBy, Silenced;
      SilencedForever(events, init, o);
      SilencedStep(Run(events + init).value, more[|more| - 1], o);
    }
  }

  /** Taking the call over supersedes every earlier origin of the call's life, except a greeting still in its handler. */
  lemma TakeoverSupersedes(events: seq<Event>, e: Event, o: nat)
    requires Run(events).Some? && Enabled(Run(events).value, e) && TakesOver(Run(events).value, e)
    requires var s := Run(events).value;
      o < |s.origins| == |s.homes| && s.homes[o] < |s.calls| && s.calls[s.homes[o]] == s.calls[e.socket]
    ensures var s := Run(events).value; var r := Step(s, e);
      && (s.origins[o].lifetime == Count(s.lifetimes, s.calls[e.socket]) ==>
            (Superseded(r, o) <==> HasJoined(s.origins[o])))
      && (Silenced(r, o) <==> HasJoined(s.origins[o]) || !Writable(s, o))
  {
    var s := Run(events).value;
    var r := Step(s, e);
    RunTurns(events);
    RunDated(events);
    StepTables(s, e);
    assert DatedAt(s, o);
    StartKeepsRest(s, e.socket);
    hide Run, Turns, Dated, Formed, Step, StartTurn;
  }

  /** The step that takes over leaves the earlier origins, and what is writable, as they are. */
  lemma StartKeepsRest(s: State, k: nat)
    requires Formed(s) && Enabled(s, Deliver(k, AppendAudio)) && TakesOver(s, Deliver(k, AppendAudio))
    ensures var r := Step(s, Deliver(k, AppendAudio));
      && r == StartTurn(s, k) && s.origins <= r.origins && s.homes <= r.homes && r.calls == s.calls
      && |r.sockets| == |s.sockets| && |r.homes| == |r.origins|
      && forall i :: 0 <= i < |s.sockets| ==> r.sockets[i].writable == s.sockets[i].writable
  {
    hide NewOrigin, ResolveTool, AbortIn;
  }

  lemma RunGrows(events: seq<Event>, e: Event)
    requires Run(events).Some? && Enabled(Run(events).value, e)
    ensures Run(events + [e]) == Some(Step(Run(events).value, e))
  {
    assert (events + [e])[..|events|] == events;
  }

  /** The caller's audio on any socket of a call silences the call's earlier turns and greetings: whatever happens after
    it, none of them sends a response event - unless it is a greeting whose events were still being made. */
  lemma TakeoverSilences(events: seq<Event>, e: Event, more: seq<Event>, o: nat)
    requires Run(events).Some? && Enabled(Run(events).value, e) && TakesOver(Run(events).value, e)
    requires var s := Run(events).value;
      o < |s.origins| == |s.homes| && s.homes[o] < |s.sockets| == |s.calls| && s.calls[s.homes[o]] == s.calls[e.socket]
    requires HasJoined(Run(events).value.origins[o]) || !Writable(Run(events).value, o)
    requires Run(events + [e] + more).Some?
    ensures ResponsesBy(Run(events + [e] + more).value.trace, o) == ResponsesBy(Run(events).value.trace, o)
  {
    var s := Run(events).value;
    RunGrows(events, e);
    TakeoverSupersedes(events, e, o);
    StepTrace(s, e);
    ResponsesBySnoc(s.trace, Step(s, e).trace[|s.trace|], o);
    hide Run, Step, Silenced, RecordOf, ResponsesBy;
    SilencedForever(events + [e], more, o);
  }

  // ---------------------------------------------------------------- the greeting that is still being made

  /** A greeting makes the events of normal mode. */
  ghost predicate GreetingsNormal(s: State) {
    forall o :: 0 <= o < |s.origins| && s.origins[o].greeting ==> s.origins[o].scenario.mode.Normal?
  }

  lemma StepGreetings(s: State, e: Event)
    requires Formed(s) && Turns(s) && Enabled(s, e) && GreetingsNormal(s)
    ensures GreetingsNormal(Step(s, e))
  {
    StepTables(s, e);
    GreetingsStay(s, e, Step(s, e));
    hide Formed, Turns, Step, GreetingsNormal, TablesStep, OriginsKept;
  }

  lemma GreetingsStay(s: State, e: Event, r: State)
    requires TablesStep(s, e, r) && OriginsKept(s, r) && GreetingsNormal(s)
    ensures GreetingsNormal(r)
  {
    hide Releasable;
  }

  lemma {:induction false} RunGreetings(events: seq<Event>)
    requires Run(events).Some?
    ensures GreetingsNormal(Run(events).value)
  {
    if events != [] {
      RunGreetings(events[..|events| - 1]);
      RunTurns(events[..|events| - 1]);
      hide GreetingsNormal, Turns;
      StepGreetings(Run(events[..|events| - 1]).value, events[|events| - 1]);
    }
  }

  /** A greeting whose events have been made is unhindered: it has just joined the current generation. */
  lemma GreetingJoinsUnhindered(s: State, k: nat, o: nat)
    requires Formed(s) && k < |s.sockets| && s.sockets[k].handler == Greeting(o) && s.sockets[k].writable
    requires OriginAt(s.homes, k, o)
    ensures var r := Step(s, ResumeHandler(k)); var t := |s.tasks|;
      && Unhindered(r, t) && OriginOf(r.tasks[t].body) == Some(o)
      && r.tasks[t].body == ResponseStage(o, ResponseEvents(s.origins[o].events))
      && Plan(r.origins[o]) == Plan(s.origins[o]) && r.trace == s.trace
  {
    assert |s.calls| == |s.sockets| && |s.homes| == |s.origins|;
    hide AbortIn, ResponseEvents, Script, Tracked;
  }

  lemma ResponseTraces(s: State, t: nat, w: State)
    requires Formed(s) && t < |s.tasks| && s.tasks[t].body.ResponseStage? && s.tasks[t].body.rest != []
    requires s.tasks[t].body.origin < |s.origins| && s.tasks[t].socket < |s.calls| && !s.tasks[t].aborted
    requires var o := s.tasks[t].body.origin;
      && s.origins[o].generation == Count(s.generations, s.calls[s.tasks[t].socket])
      && |s.homes| == |s.origins| && s.homes[o] < |s.sockets| == |s.calls|
      && w == Write(s, o, Json(s.tasks[t].body.rest[0]), Some(s.origins[o].generation))
    ensures Step(s, TaskResumes(t)).trace == w.trace
  {
    var o, rest := s.tasks[t].body.origin, s.tasks[t].body.rest;
    WriteOnly(s, o, Json(rest[0]), Some(s.origins[o].generation));
    assert |w.tasks| == |s.tasks| && |w.origins| == |s.origins|;
    assert Step(s, TaskResumes(t)) == OnResponseStage(s, t) by { hide OnResponseStage; }
    EndingKeepsTrace(w, t, o, Writable(s, o), ResponseStage(o, rest[1..]));
    hide Formed, Write, Writable, OnlyWrote, Step, SameButSent, Finish, Continue;
  }

  lemma EndingKeepsTrace(w: State, t: nat, o: nat, complete: bool, body: Body)
    requires t < |w.tasks| && o < |w.origins|
    ensures Finish(w, t, o, complete).trace == w.trace && Continue(w, t, o, body).trace == w.trace
  {
  }

  /** Its first resumption sends a response event. */
  lemma UnhinderedAnswers(s: State, t: nat, o: nat)
    requires Formed(s) && Unhindered(s, t) && s.tasks[t].body.ResponseStage?
    requires o == s.tasks[t].body.origin && s.tasks[t].body.rest != []
    ensures ResponsesBy(Step(s, TaskResumes(t)).trace, o) == ResponsesBy(s.trace, o) + [Json(s.tasks[t].body.rest[0])]
  {
    var rest, k := s.tasks[t].body.rest, s.homes[o];
    assert |s.homes| == |s.origins| && |s.calls| == |s.sockets|;
    var added := Sent(s.calls[k], Count(s.lifetimes, s.calls[k]), o, Json(rest[0]), Some(s.origins[o].generation));
    var w := Write(s, o, Json(rest[0]), Some(s.origins[o].generation));
    assert w.trace == s.trace + [added] && |w.tasks| == |s.tasks| && |w.origins| == |s.origins| by { hide Formed; }
    ResponseTraces(s, t, w);
    hide ResponsesBy, Formed, Write, Writable, Step;
    ResponsesBySnoc(s.trace, added, o);
  }

  /** What the caller can see before its audio arrives: the origin is a greeting its open socket is still making. */
  predicate StillToJoin(s: State, o: nat) {
    && o < |s.origins| == |s.homes| && s.homes[o] < |s.sockets|
    && s.origins[o].greeting && s.origins[o].place.InHandler? && Writable(s, o)
  }

  /** Its events are never empty. */
  lemma GreetingHasEvents(s: State, o: nat)
    requires Turns(s) && GreetingsNormal(s) && o < |s.origins| && s.origins[o].greeting
    ensures ResponseEvents(s.origins[o].events) != []
  {
    assert Sound(o, s.origins[o], s.sockets[s.homes[o]].writable, s.tasks);
    ScriptSplits(s.origins[o].scenario);
    hide Turns, Script, ResponseEvents;
  }

  lemma GreetingWaits(s: State, e: Event, o: nat)
    requires Formed(s) && Enabled(s, e) && TakesOver(s, e) && Held(s.sockets, s.homes, s.origins) && StillToJoin(s, o)
    ensures var r, k := Step(s, e), s.homes[o];
      && |r.homes| == |r.origins| && |s.origins| <= |r.origins| && r.origins[o] == s.origins[o]
      && k < |r.sockets| && r.sockets[k].handler == Greeting(o) && r.sockets[k].writable && OriginAt(r.homes, k, o)
    ensures ResponsesBy(Step(s, e).trace, o) == ResponsesBy(s.trace, o)
  {
    StepTrace(s, e);
    ResponsesBySnoc(s.trace, Step(s, e).trace[|s.trace|], o);
    hide NewOrigin, ResolveTool, AbortIn, ResponsesBy, RecordOf;
  }

  /** After the takeover the greeting joins, unhindered, with all it has to say. */
  lemma GreetingJoinsLate(events: seq<Event>, e: Event, o: nat) returns (joined: seq<Event>)
    requires Run(events).Some? && Enabled(Run(events).value, e) && TakesOver(Run(events).value, e)
    requires StillToJoin(Run(events).value, o)
    ensures var s := Run(events).value; var t := |Step(s, e).tasks|;
      && joined == events + [e] + [ResumeHandler(s.homes[o])] && Run(joined).Some?
      && var j := Run(joined).value;
      && Unhindered(j, t) && j.tasks[t].body.ResponseStage? && j.tasks[t].body.origin == o && j.tasks[t].body.rest != []
      && Plan(j.origins[o]) == Plan(s.origins[o]) && ResponsesBy(j.trace, o) == ResponsesBy(s.trace, o)
  {
    var s := Run(events).value;
    var r, k := Step(s, e), s.homes[o];
    joined := events + [e] + [ResumeHandler(k)];
    RunHeld(events);
    RunTurns(events);
    RunGreetings(events);
    RunGrows(events, e);
    hide Turns, Held, GreetingsNormal, ResponseEvents, Plan, Unhindered, Step, Run, ResponsesBy;
    GreetingHasEvents(s, o);
    GreetingWaits(s, e, o);
    GreetingJoinsUnhindered(r, k, o);
    RunGrows(events + [e], ResumeHandler(k));
  }

  /** Left to itself, the greeting sends its whole script after the takeover. */
  lemma GreetingOvertakes(events: seq<Event>, e: Event, o: nat)
    requires Run(events).Some? && Enabled(Run(events).value, e) && TakesOver(Run(events).value, e)
    requires StillToJoin(Run(events).value, o)
    ensures var s := Run(events).value; var t := |Step(s, e).tasks|;
      var joined := Run(events + [e] + [ResumeHandler(s.homes[o])]);
      && joined.Some? && Unhindered(joined.value, t)
      && var done := LetRun(joined.value, t); o < |done.origins| && done.origins[o].sent == Plan(s.origins[o])
  {
    var joined := GreetingJoinsLate(events, e, o);
    RunTurns(joined);
    hide Turns, Plan, Step, Run, LetRun, ResponsesBy, Formed;
    UnhinderedCompletes(Run(joined).value, |Step(Run(events).value, e).tasks|);
  }

  lemma AnswersOnce(events: seq<Event>, t: nat, o: nat)
    requires Run(events).Some? && Unhindered(Run(events).value, t)
    requires var body := Run(events).value.tasks[t].body; body.ResponseStage? && body.origin == o && body.rest != []
    ensures var r := Run(events + [TaskResumes(t)]);
      r.Some? && ResponsesBy(r.value.trace, o) != ResponsesBy(Run(events).value.trace, o)
  {
    var s := Run(events).value;
    RunGrows(events, TaskResumes(t));
    assert Formed(s) && Enabled(s, TaskResumes(t));
    hide Formed, Run, Step, ResponsesBy;
    UnhinderedAnswers(s, t, o);
  }

  lemma GreetingAnswersLate(events: seq<Event>, e: Event, o: nat)
    requires Run(events).Some? && Enabled(Run(events).value, e) && TakesOver(Run(events).value, e)
    requires StillToJoin(Run(events).value, o)
    ensures var s := Run(events).value;
      AnswersLater(events, e, [ResumeHandler(s.homes[o]), TaskResumes(|Step(s, e).tasks|)], o)
  {
    var t := |Step(Run(events).value, e).tasks|;
    var joined := GreetingJoinsLate(events, e, o);
    hide Step, Run, ResponsesBy, Plan;
    AnswersOnce(joined, t, o);
    var more := [ResumeHandler(Run(events).value.homes[o]), TaskResumes(t)];
    assert joined + [TaskResumes(t)] == events + [e] + more;
  }

  /** An earlier origin of the call answers in some continuation exactly when it is a greeting still to join. */
  lemma EarlierOriginAnswersExactly(events: seq<Event>, e: Event, o: nat)
    requires Run(events).Some? && Enabled(Run(events).value, e) && TakesOver(Run(events).value, e)
    requires var s := Run(events).value;
      o < |s.origins| == |s.homes| && s.homes[o] < |s.sockets| == |s.calls| && s.calls[s.homes[o]] == s.calls[e.socket]
    ensures (exists more :: AnswersLater(events, e, more, o)) <==> StillToJoin(Run(events).value, o)
  {
    var s := Run(events).value;
    if StillToJoin(s, o) {
      GreetingAnswersLate(events, e, o);
    } else {
      forall more | Run(events + [e] + more).Some? ensures !AnswersLater(events, e, more, o) {
        TakeoverSilences(events, e, more, o);
      }
    }
  }

  predicate AnswersLater(events: seq<Event>, e: Event, more: seq<Event>, o: nat) {
    && Run(events).Some? && Run(events + [e] + more).Some?
    && ResponsesBy(Run(events + [e] + more).value.trace, o) != ResponsesBy(Run(events).value.trace, o)
  }

  // ---------------------------------------------------------------- all frames

  /** For a superseded origin the frames that still go out are exactly those no generation guards. */
  lemma OvertakenSpeaksExactly(events: seq<Event>, e: Event, o: nat)
    requires Run(events).Some? && Enabled(Run(events).value, e) && Superseded(Run(events).value, o)
    ensures var s := Run(events).value;
      && s.homes[o] < |s.sockets|
      && (PutsOnWire(s, Step(s, e), o) <==> Writable(s, o) && SaysUnguarded(s, e, o))
  {
    var s := Run(events).value;
    RunTurns(events);
    StepSpeaksExactly(s, e, o);
    if SaysResponse(s, e, o) {
      StageOrigin(s, e.task);
    }
    hide Run, Turns, Step, PutsOnWire, SaysUnguarded;
  }

  /** It is over, or in an aborted task, or its socket is not writable. */
  predicate Mute(s: State, o: nat) {
    && o < |s.origins| == |s.homes| && s.homes[o] < |s.sockets|
    && (!Writable(s, o) || s.origins[o].place.Over?
        || (s.origins[o].place.InTask? && s.origins[o].place.task < |s.tasks| && s.tasks[s.origins[o].place.task].aborted))
  }

  lemma MuteSaysNothing(s: State, e: Event, o: nat)
    requires Formed(s) && Turns(s) && Enabled(s, e) && Mute(s, o) && Writable(s, o)
    ensures !SaysUnguarded(s, e, o) && !SaysResponse(s, e, o)
  {
    if e.ResumeHandler? {
      SocketHolds(s, e.socket);
    } else if e.TaskResumes? && OriginOf(s.tasks[e.task].body) == Some(o) {
      StageOrigin(s, e.task);
    }
    hide Formed, Turns;
  }

  lemma MuteStays(s: State, r: State, o: nat)
    requires Mute(s, o) && OriginsKept(s, r) && Forward(s, r)
    ensures Mute(r, o)
  {
    assert Later(s.origins[o].place, r.origins[o].place);
  }

  lemma MuteUnspoken(s: State, e: Event, o: nat)
    requires Formed(s) && Turns(s) && Enabled(s, e) && Mute(s, o)
    ensures !PutsOnWire(s, Step(s, e), o)
  {
    StepSpeaksExactly(s, e, o);
    if Writable(s, o) {
      MuteSaysNothing(s, e, o);
    }
    hide Formed, Turns, Step, Enabled, PutsOnWire, SaysUnguarded, SaysResponse;
  }

  lemma MuteStep(s: State, e: Event, o: nat)
    requires Formed(s) && Turns(s) && Enabled(s, e) && Mute(s, o)
    ensures Mute(Step(s, e), o) && SentBy(Step(s, e).trace, o) == SentBy(s.trace, o)
  {
    hide Formed, Turns, Step, Enabled, Mute, PutsOnWire, SentBy, TablesStep, OriginsKept, Forward;
    StepTables(s, e);
    StepForward(s, e);
    MuteStays(s, Step(s, e), o);
    MuteUnspoken(s, e, o);
    UnspokenAddsNothing(s, e, o);
  }

  lemma UnspokenAddsNothing(s: State, e: Event, o: nat)
    requires Formed(s) && Enabled(s, e) && !PutsOnWire(s, Step(s, e), o)
    ensures SentBy(Step(s, e).trace, o) == SentBy(s.trace, o)
  {
    var r := Step(s, e);
    StepTrace(s, e);
    hide Formed, Step, RecordOf, SentBy, Enabled;
    if r.trace != s.trace {
      SentBySnoc(s.trace, Added(s, r), o);
    }
  }

  lemma {:induction false} MuteForever(events: seq<Event>, more: seq<Event>, o: nat)
    requires Run(events).Some? && Run(events + more).Some? && Mute(Run(events).value, o)
    ensures Mute(Run(events + more).value, o)
    ensures SentBy(Run(events + more).value.trace, o) == SentBy(Run(events).value.trace, o)
  {
    if more == [] {
      assert events + more == events;
    } else {
      var init := more[..|more| - 1];
      RunUnfolds(events, more);
      RunTurns(events + init);
      hide Run, Turns, Step, SentBy, Mute;
      MuteForever(events, init, o);
      MuteStep(Run(events + init).value, more[|more| - 1], o);
    }
  }

  lemma StartMutes(s: State, e: Event, o: nat)
    requires Formed(s) && Live(s) && Turns(s) && Held(s.sockets, s.homes, s.origins) && Enabled(s, e) && TakesOver(s, e)
    requires o < |s.origins| && s.homes[o] == e.socket
    ensures Mute(Step(s, e), o)
  {
    var k, r := e.socket, Step(s, e);
    assert Sound(o, s.origins[o], s.sockets[k].writable, s.tasks);
    StartKeepsRest(s, k);
    ControllerAborts(s.sockets, s.tasks, k);
    assert r.tasks == AbortIn(s.tasks, s.sockets[k].controller);
    if s.origins[o].place.InTask? {
      var t := s.origins[o].place.task;
      assert BodyAt(s.homes, s.tasks[t].socket, s.tasks[t].body) && s.tasks[t].socket == k;
    }
    hide Formed, Live, Turns, Step, StartTurn, AbortIn, AtPoint, Remaining, Script;
  }

  /** On its own socket the caller's audio silences the earlier turns and greetings altogether: no frame of theirs follows,
    the broken one included. Only origins on other sockets of the call may still speak. */
  lemma TakeoverMutesItsSocket(events: seq<Event>, e: Event, more: seq<Event>, o: nat)
    requires Run(events).Some? && Enabled(Run(events).value, e) && TakesOver(Run(events).value, e)
    requires var s := Run(events).value; o < |s.origins| == |s.homes| && s.homes[o] == e.socket
    requires Run(events + [e] + more).Some?
    ensures SentBy(Run(events + [e] + more).value.trace, o) == SentBy(Run(events).value.trace, o)
  {
    var s := Run(events).value;
    RunGrows(events, e);
    RunTurns(events);
    RunLive(events);
    RunHeld(events);
    StartMutes(s, e, o);
    StepTrace(s, e);
    SentBySnoc(s.trace, Step(s, e).trace[|s.trace|], o);
    hide Run, Turns, Live, Held, Step, Mute, RecordOf, SentBy;
    MuteForever(events + [e], more, o);
  }
}
