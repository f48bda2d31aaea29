/** OpenAiRealtimeProtocolSimulator as a state machine: sockets of many calls, one message handler, one silence timer and
  one response task per socket, abort controllers and per-call tables. The code between two `await`s is one step, and the
  order of steps is arbitrary; a timer may fire at any time after it is due. A message is delivered only to a socket
  whose close event has not fired. Controllers are named by the task they were made for, so "the controller of the
  socket" is a task number; sockets, tasks and origins are numbered in order of creation. */
module RealtimeModel {
  import opened Options
  import opened Scripts

  /** What the socket's message chain is suspended in. */
  datatype Handler = Free | Updating | Greeting(origin: nat) | StartingTurn(origin: nat)

  /** PendingCallerTurn: the turn and the timer of its current controller. */
  datatype Pending = Pending(origin: nat, timer: nat)

  datatype Socket = Socket(
    open: bool,          // accepted, close event not fired
    writable: bool,      // readyState 1
    tools: seq<SessionTool>,
    handler: Handler,
    pending: Option<Pending>,
    controller: Option<nat>,
    lastAudio: int)

  /** Where the events of an origin will come from next. */
  datatype Place = InHandler | InPending | InTask(task: nat) | Over(complete: bool)

  /** A caller turn or a greeting: a source of outbound events with one sequence number. `lifetime` counts the
    releases of the call before it; `sent` is what it has put on the wire. */
  datatype Origin = Origin(
    lifetime: nat,
    sequence: nat,
    generation: nat,
    greeting: bool,
    scenario: Scenario,
    events: seq<ServerEvent>,
    place: Place,
    sent: seq<Wire>)

  /** How far a task is. `Ended` has its `finally` callback to run, `Settled` its removal from the active tasks. */
  datatype Body =
    | Timer(origin: nat, due: int)
    | CallerStage(origin: nat, rest: seq<ServerEvent>)
    | ModeStage(origin: nat)
    | ResponseStage(origin: nat, rest: seq<ServerEvent>)
    | Ended
    | Settled
    | Untracked

  datatype Task = Task(socket: nat, aborted: bool, body: Body)

  /** The outbound trace, with the points where a turn takes over the call. Response events carry their generation. */
  datatype Entry =
    | TurnStarted(call: string, lifetime: nat, origin: nat, generation: nat)
    | Sent(call: string, lifetime: nat, origin: nat, wire: Wire, tag: Option<nat>)

  /** `calls[k]` is the call socket `k` was accepted for, `homes[o]` the socket origin `o` speaks on. */
  datatype State = State(
    now: int,
    running: bool,
    scenarios: map<string, Scenario>,
    generations: map<string, nat>,
    sequences: map<string, nat>,
    counts: map<string, nat>,
    active: map<string, set<nat>>,
    lifetimes: map<string, nat>,
    calls: seq<string>,
    sockets: seq<Socket>,
    tasks: seq<Task>,
    homes: seq<nat>,
    origins: seq<Origin>,
    trace: seq<Entry>)

  datatype Message =
    | Malformed
    | SessionUpdate(tools: seq<SessionTool>)
    | ResponseCreate
    | AppendAudio
    | OtherMessage

  datatype Event =
    | SetScenario(call: string, scenario: Scenario)
    | Connect(call: string, authorised: bool)
    | PeerCloses(socket: nat)
    | CloseFires(socket: nat)
    | Deliver(socket: nat, message: Message)
    | ResumeHandler(socket: nat)
    | TimerWakes(task: nat)
    | TaskResumes(task: nat)
    | FinallyRuns(task: nat)
    | TaskUntracked(task: nat)
    | Release(call: string)
    | StopServer
    | TimePasses(duration: nat)

  function Initial(): State {
    State(0, true, map[], map[], map[], map[], map[], map[], [], [], [], [], [], [])
  }

  function Count(m: map<string, nat>, c: string): nat {
    if c in m then m[c] else 0
  }

  function ActiveTasks(s: State, c: string): set<nat> {
    if c in s.active then s.active[c] else {}
  }

  function SilenceMs(sc: Scenario): int {
    var ms := GetOr(sc.turnDetectionSilenceMs, 200);
    if ms < 0 then 0 else ms
  }

  function OriginOf(b: Body): Option<nat> {
    match b
    case Timer(o, _) => Some(o)
    case CallerStage(o, _) => Some(o)
    case ModeStage(o) => Some(o)
    case ResponseStage(o, _) => Some(o)
    case _ => None
  }

  predicate IsStage(b: Body) {
    b.CallerStage? || b.ModeStage? || b.ResponseStage?
  }

  // ---------------------------------------------------------------- every number names something of the right socket

  predicate OriginAt(homes: seq<nat>, k: nat, o: nat) {
    o < |homes| && homes[o] == k
  }

  predicate BodyAt(homes: seq<nat>, k: nat, body: Body) {
    OriginOf(body).Some? ==> OriginAt(homes, k, OriginOf(body).value)
  }

  predicate SocketAt(homes: seq<nat>, tasks: nat, k: nat, socket: Socket) {
    && (socket.handler.Greeting? ==> OriginAt(homes, k, socket.handler.origin))
    && (socket.handler.StartingTurn? ==> OriginAt(homes, k, socket.handler.origin))
    && (socket.pending.Some? ==>
          OriginAt(homes, k, socket.pending.value.origin) && socket.pending.value.timer < tasks)
    && (socket.controller.Some? ==> socket.controller.value < tasks)
  }

  ghost predicate Formed(s: State) {
    && |s.calls| == |s.sockets| && |s.homes| == |s.origins|
    && (forall k :: 0 <= k < |s.sockets| ==> SocketAt(s.homes, |s.tasks|, k, s.sockets[k]))
    && (forall t :: 0 <= t < |s.tasks| ==>
          s.tasks[t].socket < |s.sockets| && BodyAt(s.homes, s.tasks[t].socket, s.tasks[t].body))
    && (forall o :: 0 <= o < |s.homes| ==> s.homes[o] < |s.sockets|)
  }

  // ---------------------------------------------------------------- pieces shared by the steps

  /** The tasks after the controller of one of them, if any, was aborted. */
  function AbortIn(tasks: seq<Task>, t: Option<nat>): (r: seq<Task>)
    ensures |r| == |tasks|
  {
    if t.Some? && t.value < |tasks| then tasks[t.value := tasks[t.value].(aborted := true)] else tasks
  }

  function PendingTimer(socket: Socket): Option<nat> {
    if socket.pending.None? then None else Some(socket.pending.value.timer)
  }

  /** `trackTask` of the next task. */
  function Tracked(s: State, c: string): map<string, set<nat>> {
    s.active[c := ActiveTasks(s, c) + {|s.tasks|}]
  }

  /** `nextResponseSequence`, and the events of the scenario that carries the number. */
  function NewOrigin(s: State, c: string, greeting: bool, generation: nat, scenario: Scenario): Origin {
    var sequence := Count(s.sequences, c) + 1;
    var numbered := scenario.(responseSequence := Some(sequence));
    Origin(Count(s.lifetimes, c), sequence, generation, greeting, numbered, Script(numbered), InHandler, [])
  }

  predicate Writable(s: State, o: nat)
    requires o < |s.homes| && s.homes[o] < |s.sockets|
  {
    s.sockets[s.homes[o]].writable
  }

  /** `send`: nothing happens on a socket that is not open for writing. */
  function Write(s: State, o: nat, wire: Wire, tag: Option<nat>): State
    requires o < |s.homes| == |s.origins| && s.homes[o] < |s.sockets| == |s.calls|
  {
    var origin, c := s.origins[o], s.calls[s.homes[o]];
    if !Writable(s, o) then s
    else
      s.(origins := s.origins[o := origin.(sent := origin.sent + [wire])],
         trace := s.trace + [Sent(c, Count(s.lifetimes, c), o, wire, tag)])
  }

  // ---------------------------------------------------------------- steps

  function OnConnect(s: State, c: string, authorised: bool): State {
    if !authorised || c !in s.scenarios then s
    else s.(calls := s.calls + [c], sockets := s.sockets + [Socket(true, true, [], Free, None, None, s.now)],
            counts := s.counts[c := Count(s.counts, c) + 1])
  }

  function CloseSocket(s: State, k: nat): State
    requires k < |s.sockets|
  {
    s.(sockets := s.sockets[k := s.sockets[k].(writable := false)])
  }

  function OnClose(s: State, k: nat): State
    requires Formed(s) && k < |s.sockets|
  {
    var c, socket := s.calls[k], s.sockets[k];
    var previous := if c in s.counts then s.counts[c] else 1;
    s.(sockets := s.sockets[k := socket.(open := false, writable := false)],
       tasks := AbortIn(AbortIn(s.tasks, socket.controller), PendingTimer(socket)),
       counts := s.counts[c := if previous >= 1 then previous - 1 else 0])
  }

  /** More audio for the pending turn: its timer is aborted and a new one starts. */
  function RestartTimer(s: State, k: nat): State
    requires Formed(s) && k < |s.sockets| && s.sockets[k].pending.Some?
  {
    var socket, o := s.sockets[k], s.sockets[k].pending.value.origin;
    s.(sockets := s.sockets[k := socket.(lastAudio := s.now, pending := Some(Pending(o, |s.tasks|)))],
       tasks := AbortIn(s.tasks, PendingTimer(socket))
                + [Task(k, false, Timer(o, s.now + SilenceMs(s.origins[o].scenario)))],
       active := Tracked(s, s.calls[k]))
  }

  /** The first audio of a turn takes over the call and silences the socket's response. */
  function StartTurn(s: State, k: nat): State
    requires Formed(s) && k < |s.sockets| && s.calls[k] in s.scenarios
  {
    var c, socket, o := s.calls[k], s.sockets[k], |s.origins|;
    var generation := Count(s.generations, c) + 1;
    s.(generations := s.generations[c := generation],
       sequences := s.sequences[c := Count(s.sequences, c) + 1],
       sockets := s.sockets[k := socket.(lastAudio := s.now, handler := StartingTurn(o))],
       tasks := AbortIn(s.tasks, socket.controller),
       homes := s.homes + [k],
       origins := s.origins + [NewOrigin(s, c, false, generation, ResolveTool(socket.tools, s.scenarios[c]))],
       trace := s.trace + [TurnStarted(c, Count(s.lifetimes, c), o, generation)])
  }

  function StartGreeting(s: State, k: nat): State
    requires Formed(s) && k < |s.sockets| && s.calls[k] in s.scenarios
  {
    var c := s.calls[k];
    s.(sequences := s.sequences[c := Count(s.sequences, c) + 1],
       sockets := s.sockets[k := s.sockets[k].(handler := Greeting(|s.origins|))],
       homes := s.homes + [k],
       origins := s.origins + [NewOrigin(s, c, true, 0, s.scenarios[c].(mode := Normal))])
  }

  function OnMessage(s: State, k: nat, m: Message): State
    requires Formed(s) && k < |s.sockets|
  {
    if m.Malformed? || s.calls[k] !in s.scenarios then CloseSocket(s, k)
    else
      match m
      case SessionUpdate(tools) => s.(sockets := s.sockets[k := s.sockets[k].(tools := tools, handler := Updating)])
      case ResponseCreate => StartGreeting(s, k)
      case AppendAudio => if s.sockets[k].pending.Some? then RestartTimer(s, k) else StartTurn(s, k)
      case _ => s
  }

  /** The greeting's events are made: it joins the current generation and replaces the socket's response. */
  function Greet(s: State, k: nat, o: nat): State
    requires Formed(s) && k < |s.sockets| && OriginAt(s.homes, k, o)
  {
    var socket, origin := s.sockets[k], s.origins[o];
    s.(sockets := s.sockets[k := socket.(handler := Free, controller := Some(|s.tasks|))],
       tasks := AbortIn(s.tasks, socket.controller) + [Task(k, false, ResponseStage(o, ResponseEvents(origin.events)))],
       active := Tracked(s, s.calls[k]),
       origins := s.origins[o := origin.(generation := Count(s.generations, s.calls[k]), place := InTask(|s.tasks|))])
  }

  function AnnounceSpeech(s: State, o: nat): State
    requires Formed(s) && o < |s.origins|
  {
    var started := FindSpeechStarted(CallerEvents(s.origins[o].events));
    if started.Some? then Write(s, o, Json(started.value), None) else s
  }

  /** The turn's events are made: speech is announced and the silence timer starts. */
  function BeginTurn(s: State, k: nat, o: nat): State
    requires Formed(s) && k < |s.sockets| && OriginAt(s.homes, k, o)
  {
    var t := AnnounceSpeech(s, o);
    t.(sockets := s.sockets[k := s.sockets[k].(handler := Free, pending := Some(Pending(o, |s.tasks|)))],
       tasks := s.tasks + [Task(k, false, Timer(o, s.now + SilenceMs(s.origins[o].scenario)))],
       active := Tracked(s, s.calls[k]),
       origins := t.origins[o := t.origins[o].(place := InPending)])
  }

  function OnHandler(s: State, k: nat): State
    requires Formed(s) && k < |s.sockets|
  {
    match s.sockets[k].handler
    case Greeting(o) => Greet(s, k, o)
    case StartingTurn(o) => BeginTurn(s, k, o)
    case _ => s.(sockets := s.sockets[k := s.sockets[k].(handler := Free)])
  }

  /** The silence is over: the turn stops being pending and its response replaces the socket's. */
  function CompleteTurn(s: State, t: nat): State
    requires Formed(s) && t < |s.tasks| && s.tasks[t].body.Timer?
  {
    var k, o := s.tasks[t].socket, s.tasks[t].body.origin;
    var rest := WithoutSpeechStarted(CallerEvents(s.origins[o].events));
    s.(sockets := s.sockets[k := s.sockets[k].(pending := None, controller := Some(|s.tasks|))],
       tasks := AbortIn(s.tasks[t := s.tasks[t].(body := Settled)], s.sockets[k].controller)
                + [Task(k, false, CallerStage(o, rest))],
       active := Tracked(s, s.calls[k]),
       origins := s.origins[o := s.origins[o].(place := InTask(|s.tasks|))])
  }

  function OnTimer(s: State, t: nat): State
    requires Formed(s) && t < |s.tasks| && s.tasks[t].body.Timer?
  {
    var task := s.tasks[t];
    var pending := s.sockets[task.socket].pending;
    if task.aborted || pending.None? || pending.value.origin != task.body.origin then
      s.(tasks := s.tasks[t := task.(body := Settled)])
    else CompleteTurn(s, t)
  }

  /** An origin's task goes on with another body, or ends. */
  function Continue(s: State, t: nat, o: nat, body: Body): State
    requires t < |s.tasks|
  {
    s.(tasks := s.tasks[t := s.tasks[t].(body := body)])
  }

  /** It is complete when it ran out of events on a writable socket. */
  function Finish(s: State, t: nat, o: nat, complete: bool): State
    requires t < |s.tasks| && o < |s.origins|
  {
    s.(tasks := s.tasks[t := s.tasks[t].(body := Ended)],
       origins := s.origins[o := s.origins[o].(place := Over(complete))])
  }

  function OnCallerStage(s: State, t: nat): State
    requires Formed(s) && t < |s.tasks| && s.tasks[t].body.CallerStage?
  {
    var CallerStage(o, rest) := s.tasks[t].body;
    if rest == [] || s.tasks[t].aborted then Continue(s, t, o, ModeStage(o))
    else
      Continue(Write(s, o, Json(rest[0]), None), t, o, if |rest| == 1 then ModeStage(o) else CallerStage(o, rest[1..]))
  }

  function OnModeStage(s: State, t: nat): State
    requires Formed(s) && t < |s.tasks| && s.tasks[t].body.ModeStage?
  {
    var o := s.tasks[t].body.origin;
    if s.tasks[t].aborted then Finish(s, t, o, false)
    else
      match s.origins[o].scenario.mode
      case ProviderClose => CloseSocket(Finish(s, t, o, Writable(s, o)), s.tasks[t].socket)
      case ProtocolError => Finish(Write(s, o, InvalidJson, None), t, o, Writable(s, o))
      case _ => Continue(s, t, o, ResponseStage(o, ResponseEvents(s.origins[o].events)))
  }

  function OnResponseStage(s: State, t: nat): State
    requires Formed(s) && t < |s.tasks| && s.tasks[t].body.ResponseStage?
  {
    var ResponseStage(o, rest) := s.tasks[t].body;
    var generation := s.origins[o].generation;
    if rest == [] then Finish(s, t, o, Writable(s, o) && !s.tasks[t].aborted)
    else if s.tasks[t].aborted || Count(s.generations, s.calls[s.tasks[t].socket]) != generation then
      Finish(s, t, o, false)
    else
      var w := Write(s, o, Json(rest[0]), Some(generation));
      if |rest| == 1 then Finish(w, t, o, Writable(s, o)) else Continue(w, t, o, ResponseStage(o, rest[1..]))
  }

  /** `finally`: the controller is removed only if it is still this task's own. */
  function OnFinally(s: State, t: nat): State
    requires Formed(s) && t < |s.tasks|
  {
    var k := s.tasks[t].socket;
    s.(tasks := s.tasks[t := s.tasks[t].(body := Settled)],
       sockets := if s.sockets[k].controller == Some(t) then s.sockets[k := s.sockets[k].(controller := None)]
                  else s.sockets)
  }

  function OnUntracked(s: State, t: nat): State
    requires Formed(s) && t < |s.tasks|
  {
    var c := s.calls[s.tasks[t].socket];
    s.(tasks := s.tasks[t := s.tasks[t].(body := Untracked)],
       active := if c in s.active then s.active[c := s.active[c] - {t}] else s.active)
  }

  predicate Releasable(s: State, c: string) {
    Count(s.counts, c) == 0 && ActiveTasks(s, c) == {}
  }

  /** `releaseCall`; it throws, and changes nothing, unless the call is releasable. */
  function OnRelease(s: State, c: string): State {
    if !Releasable(s, c) then s
    else
      s.(scenarios := s.scenarios - {c}, generations := s.generations - {c}, sequences := s.sequences - {c},
         counts := s.counts - {c}, active := s.active - {c}, lifetimes := s.lifetimes[c := Count(s.lifetimes, c) + 1])
  }

  /** Every open connection loses its timer and its response, and starts to close. */
  function OnStop(s: State): State
    requires Formed(s)
  {
    s.(running := false,
       sockets := seq(|s.sockets|, k requires 0 <= k < |s.sockets| =>
         if s.sockets[k].open then s.sockets[k].(writable := false) else s.sockets[k]),
       tasks := seq(|s.tasks|, t requires 0 <= t < |s.tasks| =>
         var k := s.tasks[t].socket;
         if s.sockets[k].open && (s.sockets[k].controller == Some(t) || PendingTimer(s.sockets[k]) == Some(t))
         then s.tasks[t].(aborted := true) else s.tasks[t]))
  }

  predicate Enabled(s: State, e: Event) {
    match e
    case Connect(_, _) => s.running
    case PeerCloses(k) => k < |s.sockets|
    case CloseFires(k) => k < |s.sockets| && s.sockets[k].open
    case Deliver(k, _) => k < |s.sockets| && s.sockets[k].open && s.sockets[k].handler.Free?
    case ResumeHandler(k) => k < |s.sockets| && !s.sockets[k].handler.Free?
    case TimerWakes(t) =>
      t < |s.tasks| && s.tasks[t].body.Timer? && (s.tasks[t].aborted || s.now >= s.tasks[t].body.due)
    case TaskResumes(t) => t < |s.tasks| && IsStage(s.tasks[t].body)
    case FinallyRuns(t) => t < |s.tasks| && s.tasks[t].body.Ended?
    case TaskUntracked(t) => t < |s.tasks| && s.tasks[t].body.Settled?
    case _ => true
  }

  function Step(s: State, e: Event): State
    requires Formed(s) && Enabled(s, e)
  {
    match e
    case SetScenario(c, scenario) => s.(scenarios := s.scenarios[c := scenario])
    case Connect(c, authorised) => OnConnect(s, c, authorised)
    case PeerCloses(k) => CloseSocket(s, k)
    case CloseFires(k) => OnClose(s, k)
    case Deliver(k, m) => OnMessage(s, k, m)
    case ResumeHandler(k) => OnHandler(s, k)
    case TimerWakes(t) => OnTimer(s, t)
    case TaskResumes(t) =>
      (match s.tasks[t].body
       case CallerStage(_, _) => OnCallerStage(s, t)
       case ModeStage(_) => OnModeStage(s, t)
       case _ => OnResponseStage(s, t))
    case FinallyRuns(t) => OnFinally(s, t)
    case TaskUntracked(t) => OnUntracked(s, t)
    case Release(c) => OnRelease(s, c)
    case StopServer => if s.running then OnStop(s) else s
    case TimePasses(d) => s.(now := s.now + d)
  }
}
