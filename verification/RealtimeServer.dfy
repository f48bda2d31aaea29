/** OpenAiRealtimeProtocolSimulator with its tables updated in place, one method for the code between two `await`s. Every
  method takes the state exactly where the state machine's step takes it. */
module RealtimeServer {
  import opened Options
  import opened Scripts
  import opened RealtimeModel
  import opened RealtimeForm
  import opened RealtimeTimers

  class OpenAiRealtimeProtocolSimulator {
    var now: int
    var running: bool
    var scenarios: map<string, Scenario>
    var responseGenerations: map<string, nat>
    var responseSequences: map<string, nat>
    var connectionCounts: map<string, nat>
    var activeTasks: map<string, set<nat>>
    var lifetimes: map<string, nat>
    var calls: seq<string>
    var sockets: seq<Socket>
    var tasks: seq<Task>
    var homes: seq<nat>
    var origins: seq<Origin>
    var trace: seq<Entry>

    ghost function Model(): State
      reads this
    {
      State(now, running, scenarios, responseGenerations, responseSequences, connectionCounts, activeTasks, lifetimes,
            calls, sockets, tasks, homes, origins, trace)
    }

    constructor ()
      ensures Model() == Initial()
    {
      now, running := 0, true;
      scenarios, responseGenerations, responseSequences, connectionCounts := map[], map[], map[], map[];
      activeTasks, lifetimes := map[], map[];
      calls, sockets, tasks, homes, origins, trace := [], [], [], [], [], [];
    }

    // ---------------------------------------------------------------- helpers of the source

    method SetScenario(callId: string, scenario: Scenario)
      modifies this
      ensures Model() == old(Model()).(scenarios := old(scenarios)[callId := scenario])
    {
      scenarios := scenarios[callId := scenario];
    }

    method Abort(task: Option<nat>)
      modifies this`tasks
      ensures tasks == AbortIn(old(tasks), task)
    {
      if task.Some? && task.value < |tasks| {
        tasks := tasks[task.value := tasks[task.value].(aborted := true)];
      }
    }

    method NextResponseSequence(callId: string) returns (sequence: nat)
      modifies this`responseSequences
      ensures sequence == Count(old(responseSequences), callId) + 1
      ensures responseSequences == old(responseSequences)[callId := sequence]
    {
      sequence := Count(responseSequences, callId) + 1;
      responseSequences := responseSequences[callId := sequence];
    }

    method TrackTask(callId: string, task: Task)
      modifies this`tasks, this`activeTasks
      ensures tasks == old(tasks) + [task]
      ensures activeTasks == Tracked(old(Model()), callId)
    {
      var current := if callId in activeTasks then activeTasks[callId] else {};
      activeTasks := activeTasks[callId := current + {|tasks|}];
      tasks := tasks + [task];
    }

    /** The socket's current response is aborted; a new controller and a new tracked task take its place. */
    method ScheduleResponseTask(callId: string, socket: nat, body: Body)
      requires socket < |sockets|
      modifies this`tasks, this`activeTasks, this`sockets
      ensures sockets == old(sockets)[socket := old(sockets[socket]).(controller := Some(|old(tasks)|))]
      ensures tasks == AbortIn(old(tasks), old(sockets[socket].controller)) + [Task(socket, false, body)]
      ensures activeTasks == Tracked(old(Model()), callId)
    {
      Abort(sockets[socket].controller);
      sockets := sockets[socket := sockets[socket].(controller := Some(|tasks|))];
      TrackTask(callId, Task(socket, false, body));
    }

    /** A timer for the turn's silence, tracked like any other task. */
    method ScheduleCallerTurnCompletion(socket: nat, callId: string, origin: nat)
      requires socket < |sockets| && origin < |origins|
      modifies this`tasks, this`activeTasks, this`sockets
      ensures sockets == old(sockets)[socket := old(sockets[socket]).(pending := Some(Pending(origin, |old(tasks)|)))]
      ensures tasks == old(tasks) + [Task(socket, false, Timer(origin, now + SilenceMs(origins[origin].scenario)))]
      ensures activeTasks == Tracked(old(Model()), callId)
    {
      sockets := sockets[socket := sockets[socket].(pending := Some(Pending(origin, |tasks|)))];
      TrackTask(callId, Task(socket, false, Timer(origin, now + SilenceMs(origins[origin].scenario))));
    }

    method Send(origin: nat, wire: Wire, tag: Option<nat>)
      requires Formed(Model()) && origin < |origins|
      modifies this`origins, this`trace
      ensures Model() == Write(old(Model()), origin, wire, tag)
    {
      var socket := homes[origin];
      if !sockets[socket].writable {
        return;
      }
      var speaker := origins[origin];
      origins := origins[origin := speaker.(sent := speaker.sent + [wire])];
      trace := trace + [Sent(calls[socket], Count(lifetimes, calls[socket]), origin, wire, tag)];
    }

    // ---------------------------------------------------------------- sockets

    method OnConnection(callId: string, authorised: bool)
      requires Formed(Model())
      modifies this
      ensures Model() == OnConnect(old(Model()), callId, authorised)
    {
      if !authorised || callId !in scenarios {
        return;
      }
      calls, sockets := calls + [callId], sockets + [Socket(true, true, [], Free, None, None, now)];
      connectionCounts := connectionCounts[callId := Count(connectionCounts, callId) + 1];
    }

    method OnSocketClose(socket: nat)
      requires Formed(Model()) && socket < |sockets|
      modifies this
      ensures Model() == OnClose(old(Model()), socket)
    {
      var callId := calls[socket];
      Abort(sockets[socket].controller);
      if sockets[socket].pending.Some? {
        Abort(Some(sockets[socket].pending.value.timer));
      }
      sockets := sockets[socket := sockets[socket].(open := false, writable := false)];
      var previous := if callId in connectionCounts then connectionCounts[callId] else 1;
      connectionCounts := connectionCounts[callId := if previous >= 1 then previous - 1 else 0];
    }

    method Close(socket: nat)
      requires socket < |sockets|
      modifies this`sockets
      ensures Model() == CloseSocket(old(Model()), socket)
    {
      sockets := sockets[socket := sockets[socket].(writable := false)];
    }

    // ---------------------------------------------------------------- messages

    method HandleMessage(socket: nat, message: Message)
      requires Formed(Model()) && socket < |sockets|
      modifies this
      ensures Model() == OnMessage(old(Model()), socket, message)
    {
      if message.Malformed? || calls[socket] !in scenarios {
        Close(socket);
        return;
      }
      match message
      case SessionUpdate(tools) =>
        sockets := sockets[socket := sockets[socket].(tools := tools, handler := Updating)];
      case ResponseCreate =>
        CreateGreeting(socket, calls[socket]);
      case AppendAudio =>
        ReceiveCallerAudio(socket, calls[socket], scenarios[calls[socket]]);
      case _ =>
    }

    method CreateGreeting(socket: nat, callId: string)
      requires Formed(Model()) && socket < |sockets| && callId == calls[socket] && callId in scenarios
      modifies this
      ensures Model() == StartGreeting(old(Model()), socket)
    {
      sockets := sockets[socket := sockets[socket].(handler := Greeting(|origins|))];
      NumberEvents(socket, callId, true, 0, scenarios[callId].(mode := Normal));
    }

    method ReceiveCallerAudio(socket: nat, callId: string, scenario: Scenario)
      requires Formed(Model()) && socket < |sockets| && callId == calls[socket]
      requires callId in scenarios && scenario == scenarios[callId]
      modifies this
      ensures Model() == if old(sockets[socket].pending).Some? then RestartTimer(old(Model()), socket)
                         else StartTurn(old(Model()), socket)
    {
      if sockets[socket].pending.Some? {
        ExtendCallerTurn(socket, callId);
      } else {
        OpenCallerTurn(socket, callId, scenario);
      }
    }

    method ExtendCallerTurn(socket: nat, callId: string)
      requires Formed(Model()) && socket < |sockets| && callId == calls[socket] && sockets[socket].pending.Some?
      modifies this`tasks, this`activeTasks, this`sockets
      ensures Model() == RestartTimer(old(Model()), socket)
    {
      var turn := sockets[socket].pending.value;
      sockets := sockets[socket := sockets[socket].(lastAudio := now)];
      Abort(Some(turn.timer));
      ScheduleCallerTurnCompletion(socket, callId, turn.origin);
    }

    method OpenCallerTurn(socket: nat, callId: string, scenario: Scenario)
      requires Formed(Model()) && socket < |sockets| && callId == calls[socket]
      requires callId in scenarios && scenario == scenarios[callId]
      modifies this`responseGenerations, this`responseSequences, this`sockets, this`tasks, this`homes, this`origins
      modifies this`trace
      ensures Model() == StartTurn(old(Model()), socket)
    {
      hide Formed, NewOrigin, ResolveTool, AbortIn;
      var generation := TakeOver(socket, callId);
      sockets := sockets[socket := sockets[socket].(lastAudio := now, handler := StartingTurn(|origins|))];
      NumberEvents(socket, callId, false, generation, ResolveTool(sockets[socket].tools, scenario));
    }

    /** A new generation for the call, and no more response on the socket. */
    method TakeOver(socket: nat, callId: string) returns (generation: nat)
      requires socket < |sockets|
      modifies this`responseGenerations, this`tasks, this`trace
      ensures generation == Count(old(responseGenerations), callId) + 1
      ensures responseGenerations == old(responseGenerations)[callId := generation]
      ensures tasks == AbortIn(old(tasks), sockets[socket].controller)
      ensures trace == old(trace) + [TurnStarted(callId, Count(lifetimes, callId), |origins|, generation)]
    {
      generation := Count(responseGenerations, callId) + 1;
      responseGenerations := responseGenerations[callId := generation];
      Abort(sockets[socket].controller);
      trace := trace + [TurnStarted(callId, Count(lifetimes, callId), |origins|, generation)];
    }

    /** The scenario takes the call's next sequence number, and its events are made. */
    method NumberEvents(socket: nat, callId: string, greeting: bool, generation: nat, scenario: Scenario)
      modifies this`responseSequences, this`homes, this`origins
      ensures responseSequences == old(responseSequences)[callId := Count(old(responseSequences), callId) + 1]
      ensures homes == old(homes) + [socket]
      ensures origins == old(origins) + [NewOrigin(old(Model()), callId, greeting, generation, scenario)]
      ensures forall s: State :: s.sequences == old(responseSequences) && s.lifetimes == lifetimes ==>
        NewOrigin(s, callId, greeting, generation, scenario) == NewOrigin(old(Model()), callId, greeting, generation, scenario)
    {
      hide Script;
      var sequence := NextResponseSequence(callId);
      var effective := scenario.(responseSequence := Some(sequence));
      homes := homes + [socket];
      origins := origins
        + [Origin(Count(lifetimes, callId), sequence, generation, greeting, effective, Script(effective), InHandler, [])];
    }

    /** The message handler goes on after its `await`. */
    method ResumeMessage(socket: nat)
      requires Formed(Model()) && socket < |sockets|
      modifies this
      ensures Model() == OnHandler(old(Model()), socket)
    {
      match sockets[socket].handler
      case Greeting(origin) => ScheduleGreeting(socket, origin);
      case StartingTurn(origin) => AnnounceTurn(socket, origin);
      case _ => sockets := sockets[socket := sockets[socket].(handler := Free)];
    }

    method ScheduleGreeting(socket: nat, origin: nat)
      requires Formed(Model()) && socket < |sockets| && OriginAt(homes, socket, origin)
      modifies this`origins, this`sockets, this`tasks, this`activeTasks
      ensures Model() == Greet(old(Model()), socket, origin)
    {
      var greeting, generation := origins[origin], Count(responseGenerations, calls[socket]);
      sockets := sockets[socket := sockets[socket].(handler := Free)];
      origins := origins[origin := greeting.(generation := generation, place := InTask(|tasks|))];
      ScheduleResponseTask(calls[socket], socket, ResponseStage(origin, ResponseEvents(greeting.events)));
    }

    method SendSpeechStarted(origin: nat)
      requires Formed(Model()) && origin < |origins|
      modifies this`origins, this`trace
      ensures Model() == AnnounceSpeech(old(Model()), origin)
    {
      var started := FindSpeechStarted(CallerEvents(origins[origin].events));
      if started.Some? {
        Send(origin, Json(started.value), None);
      }
    }

    method AnnounceTurn(socket: nat, origin: nat)
      requires Formed(Model()) && socket < |sockets| && OriginAt(homes, socket, origin)
      modifies this`origins, this`trace, this`sockets, this`tasks, this`activeTasks
      ensures Model() == BeginTurn(old(Model()), socket, origin)
    {
      ghost var before := Model();
      AnnounceShape(before, origin);
      hide AnnounceSpeech, SilenceMs, Formed;
      SendSpeechStarted(origin);
      AwaitSilence(socket, origin, before);
    }

    /** The turn is pending, and its timer starts. */
    method AwaitSilence(socket: nat, origin: nat, ghost before: State)
      requires Formed(before) && socket < |before.sockets| && OriginAt(before.homes, socket, origin)
      requires OnlyWrote(before, Model()) && Model() == AnnounceSpeech(before, origin)
      modifies this`origins, this`sockets, this`tasks, this`activeTasks
      ensures Model() == BeginTurn(before, socket, origin)
    {
      assert |sockets| == |before.sockets| && |origins| == |before.origins| && origin < |origins|;
      hide AnnounceSpeech, SilenceMs, Formed;
      origins := origins[origin := origins[origin].(place := InPending)];
      sockets := sockets[socket := sockets[socket].(handler := Free)];
      ScheduleCallerTurnCompletion(socket, calls[socket], origin);
    }

    // ---------------------------------------------------------------- tasks

    method WakeTimer(task: nat)
      requires Formed(Model()) && task < |tasks| && tasks[task].body.Timer?
      modifies this
      ensures Model() == OnTimer(old(Model()), task)
    {
      hide CompleteTurn;
      var timer := tasks[task];
      var pending := sockets[timer.socket].pending;
      if timer.aborted || pending.None? || pending.value.origin != timer.body.origin {
        tasks := tasks[task := timer.(body := Settled)];
      } else {
        CompletePendingTurn(task);
      }
    }

    method CompletePendingTurn(task: nat)
      requires Formed(Model()) && task < |tasks| && tasks[task].body.Timer?
      modifies this`tasks, this`sockets, this`origins, this`activeTasks
      ensures Model() == CompleteTurn(old(Model()), task)
    {
      hide AbortIn, CallerEvents, WithoutSpeechStarted;
      var socket, origin := tasks[task].socket, tasks[task].body.origin;
      tasks := tasks[task := tasks[task].(body := Settled)];
      sockets := sockets[socket := sockets[socket].(pending := None)];
      var remaining := WithoutSpeechStarted(CallerEvents(origins[origin].events));
      origins := origins[origin := origins[origin].(place := InTask(|tasks|))];
      ScheduleResponseTask(calls[socket], socket, CallerStage(origin, remaining));
    }

    method EndTask(task: nat, origin: nat, complete: bool)
      requires task < |tasks| && origin < |origins|
      modifies this`tasks, this`origins
      ensures Model() == Finish(old(Model()), task, origin, complete)
    {
      tasks := tasks[task := tasks[task].(body := Ended)];
      origins := origins[origin := origins[origin].(place := Over(complete))];
    }

    method MoveTask(task: nat, body: Body)
      requires task < |tasks|
      modifies this`tasks
      ensures forall origin :: Model() == Continue(old(Model()), task, origin, body)
    {
      tasks := tasks[task := tasks[task].(body := body)];
    }

    method SendNextCallerEvent(task: nat)
      requires Formed(Model()) && task < |tasks| && tasks[task].body.CallerStage?
      modifies this
      ensures Model() == OnCallerStage(old(Model()), task)
    {
      var CallerStage(origin, rest) := tasks[task].body;
      if rest == [] || tasks[task].aborted {
        MoveTask(task, ModeStage(origin));
        return;
      }
      Send(origin, Json(rest[0]), None);
      MoveTask(task, if |rest| == 1 then ModeStage(origin) else CallerStage(origin, rest[1..]));
    }

    method ChooseMode(task: nat)
      requires Formed(Model()) && task < |tasks| && tasks[task].body.ModeStage?
      modifies this
      ensures Model() == OnModeStage(old(Model()), task)
    {
      var origin := tasks[task].body.origin;
      var socket := homes[origin];
      if tasks[task].aborted {
        EndTask(task, origin, false);
        return;
      }
      var writable := sockets[socket].writable;
      match origins[origin].scenario.mode
      case ProviderClose =>
        EndTask(task, origin, writable);
        Close(tasks[task].socket);
      case ProtocolError =>
        Send(origin, InvalidJson, None);
        EndTask(task, origin, writable);
      case _ =>
        MoveTask(task, ResponseStage(origin, ResponseEvents(origins[origin].events)));
    }

    method SendNextResponseEvent(task: nat)
      requires Formed(Model()) && task < |tasks| && tasks[task].body.ResponseStage?
      modifies this
      ensures Model() == OnResponseStage(old(Model()), task)
    {
      var ResponseStage(origin, rest) := tasks[task].body;
      var socket, generation := tasks[task].socket, origins[origin].generation;
      var writable := sockets[homes[origin]].writable;
      if rest == [] {
        EndTask(task, origin, writable && !tasks[task].aborted);
        return;
      }
      if tasks[task].aborted || Count(responseGenerations, calls[socket]) != generation {
        EndTask(task, origin, false);
        return;
      }
      Send(origin, Json(rest[0]), Some(generation));
      if |rest| == 1 {
        EndTask(task, origin, writable);
      } else {
        MoveTask(task, ResponseStage(origin, rest[1..]));
      }
    }

    method RunFinally(task: nat)
      requires Formed(Model()) && task < |tasks|
      modifies this
      ensures Model() == OnFinally(old(Model()), task)
    {
      var socket := tasks[task].socket;
      if sockets[socket].controller == Some(task) {
        sockets := sockets[socket := sockets[socket].(controller := None)];
      }
      tasks := tasks[task := tasks[task].(body := Settled)];
    }

    method Untrack(task: nat)
      requires Formed(Model()) && task < |tasks|
      modifies this
      ensures Model() == OnUntracked(old(Model()), task)
    {
      var callId := calls[tasks[task].socket];
      if callId in activeTasks {
        activeTasks := activeTasks[callId := activeTasks[callId] - {task}];
      }
      tasks := tasks[task := tasks[task].(body := Untracked)];
    }

    // ---------------------------------------------------------------- the life of a call, and of the server

    method ReleaseCall(callId: string) returns (released: bool)
      modifies this
      ensures released == Releasable(old(Model()), callId)
      ensures Model() == OnRelease(old(Model()), callId)
    {
      released := Count(connectionCounts, callId) == 0 && (callId !in activeTasks || activeTasks[callId] == {});
      if !released {
        return;
      }
      ForgetCall(callId);
    }

    method ForgetCall(callId: string)
      modifies this
      ensures var s := old(Model());
        Model() == s.(scenarios := s.scenarios - {callId}, generations := s.generations - {callId},
                      sequences := s.sequences - {callId}, counts := s.counts - {callId},
                      active := s.active - {callId}, lifetimes := s.lifetimes[callId := Count(s.lifetimes, callId) + 1])
    {
      ForgetResponses(callId);
      activeTasks, connectionCounts, lifetimes :=
        activeTasks - {callId}, connectionCounts - {callId}, lifetimes[callId := Count(lifetimes, callId) + 1];
    }

    method ForgetResponses(callId: string)
      modifies this`scenarios, this`responseGenerations, this`responseSequences
      ensures var s := old(Model());
        Model() == s.(scenarios := s.scenarios - {callId}, generations := s.generations - {callId},
                      sequences := s.sequences - {callId})
    {
      scenarios, responseGenerations, responseSequences :=
        scenarios - {callId}, responseGenerations - {callId}, responseSequences - {callId};
    }

    /** An open connection loses its response and its timer, and starts to close. */
    method StopConnection(k: nat, ghost before: State)
      requires Formed(before) && Live(before) && k < |sockets| == |before.sockets| && Model() == StoppedTo(before, k)
      modifies this`tasks, this`sockets
      ensures |sockets| == |before.sockets| && Model() == StoppedTo(before, k + 1)
    {
      ConnectionStops(before, k);
      hide StoppedTo, Live, Formed, AbortIn, PendingTimer;
      if sockets[k].open {
        Abort(sockets[k].controller);
        Abort(PendingTimer(sockets[k]));
        Close(k);
      }
    }

    method Stop()
      requires Formed(Model()) && Live(Model())
      modifies this`running, this`tasks, this`sockets
      ensures Model() == if old(running) then OnStop(old(Model())) else old(Model())
    {
      if !running {
        return;
      }
      running := false;
      ghost var before := old(Model());
      NothingStopped(before);
      hide StoppedTo, Live, Formed, OnStop;
      for k := 0 to |sockets|
        invariant |sockets| == |before.sockets|
        invariant Model() == StoppedTo(before, k)
      {
        StopConnection(k, before);
      }
    }
  }

  /** The server once the connections before `k` were stopped. */
  ghost function StoppedTo(s: State, k: nat): State
    requires Formed(s)
  {
    s.(running := false,
       sockets := seq(|s.sockets|, i requires 0 <= i < |s.sockets| =>
         if i < k && s.sockets[i].open then s.sockets[i].(writable := false) else s.sockets[i]),
       tasks := seq(|s.tasks|, t requires 0 <= t < |s.tasks| =>
         var i := s.tasks[t].socket;
         if i < k && s.sockets[i].open && (s.sockets[i].controller == Some(t) || PendingTimer(s.sockets[i]) == Some(t))
         then s.tasks[t].(aborted := true) else s.tasks[t]))
  }

  lemma NothingStopped(s: State)
    requires Formed(s)
    ensures StoppedTo(s, 0) == s.(running := false) && StoppedTo(s, |s.sockets|) == OnStop(s)
  {
  }

  lemma OwnTasksAbort(tasks: seq<Task>, controller: Option<nat>, timer: Option<nat>)
    ensures var r := AbortIn(AbortIn(tasks, controller), timer);
      |r| == |tasks| && forall t :: 0 <= t < |tasks| ==>
        r[t] == if controller == Some(t) || timer == Some(t) then tasks[t].(aborted := true) else tasks[t]
  {
  }

  /** Aborting a socket's own controller and timer, and closing it, stops one more connection. */
  lemma ConnectionStops(s: State, k: nat)
    requires Formed(s) && Live(s) && k < |s.sockets|
    ensures var r := StoppedTo(s, k); var socket := s.sockets[k];
      && |r.sockets| == |s.sockets| && r.sockets[k] == socket
      && StoppedTo(s, k + 1) ==
           if socket.open then
             r.(tasks := AbortIn(AbortIn(r.tasks, socket.controller), PendingTimer(socket)),
                sockets := r.sockets[k := socket.(writable := false)])
           else r
  {
    var r, n, socket := StoppedTo(s, k), StoppedTo(s, k + 1), s.sockets[k];
    TasksStop(s, k);
    assert n.sockets == if socket.open then r.sockets[k := socket.(writable := false)] else r.sockets;
    hide Live, Formed, AbortIn, PendingTimer;
  }

  lemma TasksStop(s: State, k: nat)
    requires Formed(s) && Live(s) && k < |s.sockets|
    ensures var before, after := StoppedTo(s, k).tasks, StoppedTo(s, k + 1).tasks;
      after == if s.sockets[k].open then AbortIn(AbortIn(before, s.sockets[k].controller), PendingTimer(s.sockets[k]))
               else before
  {
    OwnTasks(s, k);
    var before, socket := StoppedTo(s, k).tasks, s.sockets[k];
    OneMoreStopped(s, k);
    hide Live, Formed, AbortIn, PendingTimer, StoppedTo;
    OwnTasksAbort(before, socket.controller, PendingTimer(socket));
  }

  /** Stopping one more connection aborts those of its tasks that its controller and timer name. */
  lemma OneMoreStopped(s: State, k: nat)
    requires Formed(s) && k < |s.sockets|
    ensures var before, after, socket := StoppedTo(s, k).tasks, StoppedTo(s, k + 1).tasks, s.sockets[k];
      && |before| == |after| == |s.tasks|
      && (forall t :: 0 <= t < |s.tasks| ==> before[t].socket == s.tasks[t].socket)
      && forall t :: 0 <= t < |s.tasks| ==>
           after[t] == if socket.open && s.tasks[t].socket == k
                          && (socket.controller == Some(t) || PendingTimer(socket) == Some(t))
                       then before[t].(aborted := true) else before[t]
  {
    hide PendingTimer;
  }

  /** A socket's controller and timer are its own tasks. */
  lemma OwnTasks(s: State, k: nat)
    requires Live(s) && k < |s.sockets|
    ensures s.sockets[k].controller.Some? ==>
      s.sockets[k].controller.value < |s.tasks| && s.tasks[s.sockets[k].controller.value].socket == k
    ensures PendingTimer(s.sockets[k]).Some? ==>
      PendingTimer(s.sockets[k]).value < |s.tasks| && s.tasks[PendingTimer(s.sockets[k]).value].socket == k
  {
    hide TimersLate;
  }
}
