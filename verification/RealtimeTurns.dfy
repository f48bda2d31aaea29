/** What one turn or greeting puts on the wire is a prefix of its script, whatever else happens. */
module RealtimeTurns {
  import opened Options
  import opened Scripts
  import opened RealtimeModel
  import opened RealtimeForm
  import opened RealtimeTimers

  function Plan(o: Origin): seq<Wire> {
    if o.greeting then GreetingPlan(o.scenario) else TurnPlan(o.scenario)
  }

  /** What a turn still has to send once its speech was announced. */
  function AfterSpeech(o: Origin): seq<Wire> {
    AsJson(WithoutSpeechStarted(CallerEvents(o.events))) + Tail(o.scenario)
  }

  /** What a task still has to send. */
  function Remaining(o: Origin, body: Body): seq<Wire> {
    match body
    case CallerStage(_, rest) => AsJson(rest) + Tail(o.scenario)
    case ModeStage(_) => Tail(o.scenario)
    case ResponseStage(_, rest) => AsJson(rest)
    case _ => []
  }

  /** `rest` is the end of the plan, and what was sent is a prefix of the part before it - all of it if `whole`. */
  predicate AtPoint(plan: seq<Wire>, sent: seq<Wire>, rest: seq<Wire>, whole: bool) {
    && |rest| <= |plan| && plan[|plan| - |rest|..] == rest
    && sent <= plan[..|plan| - |rest|]
    && (whole ==> sent == plan[..|plan| - |rest|])
  }

  lemma AtPointSends(plan: seq<Wire>, sent: seq<Wire>, wire: Wire, rest: seq<Wire>, whole: bool)
    requires AtPoint(plan, sent, [wire] + rest, whole)
    ensures AtPoint(plan, if whole then sent + [wire] else sent, rest, whole)
  {
  }

  lemma AtPointWeakens(plan: seq<Wire>, sent: seq<Wire>, before: seq<Wire>, rest: seq<Wire>)
    requires AtPoint(plan, sent, before + rest, false)
    ensures AtPoint(plan, sent, rest, false)
  {
  }

  lemma AtPointIsPrefix(plan: seq<Wire>, sent: seq<Wire>, rest: seq<Wire>, whole: bool)
    requires AtPoint(plan, sent, rest, whole)
    ensures sent <= plan && (whole && rest == [] ==> sent == plan)
  {
  }

  // ---------------------------------------------------------------- the invariant

  /** The origin's own record agrees with the place its events come from. */
  ghost predicate Sound(o: nat, origin: Origin, writable: bool, tasks: seq<Task>) {
    && origin.events == Script(origin.scenario)
    && match origin.place
       case InHandler => origin.sent == []
       case InPending => !origin.greeting && AtPoint(Plan(origin), origin.sent, AfterSpeech(origin), writable)
       case InTask(t) =>
         && t < |tasks| && IsStage(tasks[t].body) && OriginOf(tasks[t].body) == Some(o)
         && (origin.greeting ==> tasks[t].body.ResponseStage?)
         && AtPoint(Plan(origin), origin.sent, Remaining(origin, tasks[t].body), writable && !tasks[t].aborted)
       case Over(complete) => origin.sent <= Plan(origin) && (complete ==> origin.sent == Plan(origin))
  }

  /** Handlers, pending turns and tasks hold only origins placed with them. */
  ghost predicate Placed(sockets: seq<Socket>, tasks: seq<Task>, origins: seq<Origin>) {
    && (forall k :: 0 <= k < |sockets| && sockets[k].handler.Greeting? ==>
          var o := sockets[k].handler.origin; o < |origins| && origins[o].place.InHandler? && origins[o].greeting)
    && (forall k :: 0 <= k < |sockets| && sockets[k].handler.StartingTurn? ==>
          var o := sockets[k].handler.origin; o < |origins| && origins[o].place.InHandler? && !origins[o].greeting)
    && (forall k :: 0 <= k < |sockets| && sockets[k].pending.Some? ==>
          var o := sockets[k].pending.value.origin; o < |origins| && origins[o].place.InPending?)
    && (forall t :: 0 <= t < |tasks| && IsStage(tasks[t].body) ==>
          var o := OriginOf(tasks[t].body).value; o < |origins| && origins[o].place == InTask(t))
  }

  ghost predicate AllSound(sockets: seq<Socket>, tasks: seq<Task>, homes: seq<nat>, origins: seq<Origin>) {
    && |homes| == |origins|
    && forall o :: 0 <= o < |origins| ==>
         homes[o] < |sockets| && Sound(o, origins[o], sockets[homes[o]].writable, tasks)
  }

  ghost predicate Turns(s: State) {
    Placed(s.sockets, s.tasks, s.origins) && AllSound(s.sockets, s.tasks, s.homes, s.origins)
  }

  // ---------------------------------------------------------------- steps that place no origin elsewhere

  predicate SameOrAborted(before: Task, after: Task) {
    after == before || after == before.(aborted := true)
  }

  /** The tasks, sockets and origins other than `f` only lose: tasks abort, sockets stop being writable. */
  ghost predicate OnlyWeakened(s: State, r: State, f: int) {
    && |s.homes| == |s.origins| <= |r.origins| == |r.homes| && |s.tasks| <= |r.tasks| && |s.sockets| <= |r.sockets|
    && (forall i :: 0 <= i < |s.homes| ==> r.homes[i] == s.homes[i])
    && (forall k :: 0 <= k < |s.sockets| && r.sockets[k].writable ==> s.sockets[k].writable)
    && (forall t :: 0 <= t < |s.tasks| && IsStage(s.tasks[t].body) && OriginOf(s.tasks[t].body) != Some(f) ==>
          SameOrAborted(s.tasks[t], r.tasks[t]))
    && (forall i :: 0 <= i < |s.origins| && i != f ==> r.origins[i] == s.origins[i])
  }

  lemma OthersSound(s: State, r: State, f: int)
    requires AllSound(s.sockets, s.tasks, s.homes, s.origins) && OnlyWeakened(s, r, f)
    ensures forall i :: 0 <= i < |s.origins| && i != f ==>
      r.homes[i] < |r.sockets| && Sound(i, r.origins[i], r.sockets[r.homes[i]].writable, r.tasks)
  {
    forall i | 0 <= i < |s.origins| && i != f
      ensures r.homes[i] < |r.sockets| && Sound(i, r.origins[i], r.sockets[r.homes[i]].writable, r.tasks)
    {
      assert s.homes[i] < |s.sockets| && Sound(i, s.origins[i], s.sockets[s.homes[i]].writable, s.tasks);
      hide AllSound;
      SoundStays(i, s.origins[i], s.sockets[s.homes[i]].writable, r.sockets[r.homes[i]].writable, s.tasks, r.tasks);
    }
  }

  /** A record stays sound while its task only aborts and its socket only stops being writable. */
  lemma SoundStays(i: nat, origin: Origin, before: bool, after: bool, tasks: seq<Task>, later: seq<Task>)
    requires Sound(i, origin, before, tasks) && (after ==> before) && |tasks| <= |later|
    requires origin.place.InTask? && origin.place.task < |tasks| ==>
      SameOrAborted(tasks[origin.place.task], later[origin.place.task])
    ensures Sound(i, origin, after, later)
  {
    hide Plan, AfterSpeech, Remaining, Script;
  }

  /** The owners of origins stay what they were, or give their origin up. */
  ghost predicate SocketsKeep(before: seq<Socket>, after: seq<Socket>) {
    forall k :: 0 <= k < |after| ==>
      && (!(after[k].handler.Free? || after[k].handler.Updating?) ==>
            k < |before| && after[k].handler == before[k].handler)
      && (after[k].pending.Some? ==>
            k < |before| && before[k].pending.Some?
            && after[k].pending.value.origin == before[k].pending.value.origin)
  }

  ghost predicate TasksKeep(before: seq<Task>, after: seq<Task>) {
    forall t :: 0 <= t < |after| ==>
      if t < |before| && IsStage(before[t].body) then SameOrAborted(before[t], after[t]) else !IsStage(after[t].body)
  }

  lemma NothingMoves(s: State, r: State)
    requires Turns(s) && OnlyWeakened(s, r, -1) && r.origins == s.origins
    requires SocketsKeep(s.sockets, r.sockets) && TasksKeep(s.tasks, r.tasks)
    ensures Turns(r)
  {
    OthersSound(s, r, -1);
    hide Sound, OnlyWeakened;
  }

  lemma CloseTurns(s: State, k: nat)
    requires Formed(s) && Turns(s) && k < |s.sockets|
    ensures Turns(OnClose(s, k)) && Turns(CloseSocket(s, k))
  {
    hide Turns;
    NothingMoves(s, CloseSocket(s, k));
    var r := OnClose(s, k);
    assert forall t :: 0 <= t < |s.tasks| ==> SameOrAborted(s.tasks[t], r.tasks[t]);
    hide Formed, AbortIn;
    NothingMoves(s, r);
  }

  lemma StopTurns(s: State)
    requires Formed(s) && Turns(s)
    ensures Turns(OnStop(s))
  {
    hide Turns;
    var r := OnStop(s);
    assert forall t :: 0 <= t < |s.tasks| ==> SameOrAborted(s.tasks[t], r.tasks[t]);
    assert |r.tasks| == |s.tasks| && |s.homes| == |s.origins|;
    hide Formed;
    NothingMoves(s, r);
  }

  lemma ConnectTurns(s: State, c: string, authorised: bool)
    requires Formed(s) && Turns(s)
    ensures Turns(OnConnect(s, c, authorised))
  {
    hide Turns;
    NothingMoves(s, OnConnect(s, c, authorised));
  }

  /** A task that is no stage any more settles; its socket's controller may go. */
  lemma SettledKeeps(s: State, t: nat, k: nat, body: Body)
    requires |s.homes| == |s.origins| && t < |s.tasks| && k < |s.sockets| && !IsStage(s.tasks[t].body) && !IsStage(body)
    ensures var tasks := s.tasks[t := s.tasks[t].(body := body)]; var sockets := s.sockets[k := s.sockets[k].(controller := None)];
      && TasksKeep(s.tasks, tasks) && SocketsKeep(s.sockets, sockets) && SocketsKeep(s.sockets, s.sockets)
      && OnlyWeakened(s, s.(tasks := tasks), -1) && OnlyWeakened(s, s.(tasks := tasks, sockets := sockets), -1)
  {
  }

  lemma FinallyTurns(s: State, t: nat)
    requires Formed(s) && Turns(s) && t < |s.tasks| && s.tasks[t].body.Ended?
    ensures Turns(OnFinally(s, t))
  {
    assert |s.homes| == |s.origins| && s.tasks[t].socket < |s.sockets|;
    SettledKeeps(s, t, s.tasks[t].socket, Settled);
    hide Turns, Formed, OnlyWeakened, TasksKeep, SocketsKeep;
    NothingMoves(s, OnFinally(s, t));
  }

  lemma UntrackedTurns(s: State, t: nat)
    requires Formed(s) && Turns(s) && t < |s.tasks| && s.tasks[t].body.Settled?
    ensures Turns(OnUntracked(s, t))
  {
    assert |s.homes| == |s.origins| && s.tasks[t].socket < |s.sockets|;
    SettledKeeps(s, t, s.tasks[t].socket, Untracked);
    hide Turns, Formed, TasksKeep, SocketsKeep;
    NothingMoves(s, OnUntracked(s, t));
  }

  lemma TimerSettles(s: State, t: nat)
    requires Formed(s) && Turns(s) && t < |s.tasks| && s.tasks[t].body.Timer?
    ensures Turns(s.(tasks := s.tasks[t := s.tasks[t].(body := Settled)]))
  {
    assert |s.homes| == |s.origins| && s.tasks[t].socket < |s.sockets|;
    SettledKeeps(s, t, s.tasks[t].socket, Settled);
    hide Turns, Formed, OnlyWeakened, TasksKeep, SocketsKeep;
    NothingMoves(s, s.(tasks := s.tasks[t := s.tasks[t].(body := Settled)]));
  }

  lemma RestartTurns(s: State, k: nat)
    requires Formed(s) && Turns(s) && k < |s.sockets| && s.sockets[k].pending.Some?
    ensures Turns(RestartTimer(s, k))
  {
    hide Turns, SilenceMs;
    NothingMoves(s, RestartTimer(s, k));
  }

  // ---------------------------------------------------------------- a new origin

  lemma OwnersJoin(s: State, r: State, k: nat, o: nat)
    requires Placed(s.sockets, s.tasks, s.origins) && k < |s.sockets| == |r.sockets| && o == |s.origins|
    requires TasksKeep(s.tasks, r.tasks) && |r.origins| == o + 1
    requires forall i :: 0 <= i < o ==> r.origins[i] == s.origins[i]
    requires r.origins[o].place.InHandler?
    requires r.sockets[k].handler == (if r.origins[o].greeting then Greeting(o) else StartingTurn(o))
    requires forall i :: 0 <= i < |s.sockets| ==>
      r.sockets[i].pending == s.sockets[i].pending && (i != k ==> r.sockets[i].handler == s.sockets[i].handler)
    ensures Placed(r.sockets, r.tasks, r.origins)
  {
  }

  lemma OriginJoins(s: State, r: State, k: nat, o: nat)
    requires Formed(s) && Turns(s) && OnlyWeakened(s, r, o) && k < |s.sockets| == |r.sockets| && o == |s.origins|
    requires TasksKeep(s.tasks, r.tasks) && r.homes == s.homes + [k] && |r.origins| == o + 1
    requires r.origins[o].place.InHandler? && r.origins[o].sent == [] && r.origins[o].events == Script(r.origins[o].scenario)
    requires r.sockets[k].handler == (if r.origins[o].greeting then Greeting(o) else StartingTurn(o))
    requires forall i :: 0 <= i < |s.sockets| ==>
      r.sockets[i].pending == s.sockets[i].pending && (i != k ==> r.sockets[i].handler == s.sockets[i].handler)
    ensures Turns(r)
  {
    OthersSound(s, r, o);
    assert Sound(o, r.origins[o], r.sockets[k].writable, r.tasks);
    OwnersJoin(s, r, k, o);
    hide Sound, Placed, TasksKeep, Formed;
  }

  lemma StartTurnTurns(s: State, k: nat)
    requires Formed(s) && Turns(s) && k < |s.sockets| && s.calls[k] in s.scenarios
    ensures Turns(StartTurn(s, k))
  {
    hide Turns, ResolveTool, Script;
    OriginJoins(s, StartTurn(s, k), k, |s.origins|);
  }

  lemma StartGreetingTurns(s: State, k: nat)
    requires Formed(s) && Turns(s) && k < |s.sockets| && s.calls[k] in s.scenarios
    ensures Turns(StartGreeting(s, k))
  {
    hide Turns, Script;
    OriginJoins(s, StartGreeting(s, k), k, |s.origins|);
  }

  // ---------------------------------------------------------------- an origin moves on

  lemma ScriptBegins(origin: Origin)
    requires !origin.greeting && origin.events == Script(origin.scenario)
    ensures FindSpeechStarted(CallerEvents(origin.events)).Some?
    ensures Plan(origin) == [Json(FindSpeechStarted(CallerEvents(origin.events)).value)] + AfterSpeech(origin)
  {
    ScriptSplits(origin.scenario);
    TurnPlanSplits(origin.scenario);
  }

  lemma BeginTurnSound(s: State, k: nat, o: nat)
    requires Formed(s) && Turns(s) && k < |s.sockets| && s.sockets[k].handler == StartingTurn(o)
    requires OriginAt(s.homes, k, o)
    ensures var r := BeginTurn(s, k, o);
      && Sound(o, r.origins[o], r.sockets[k].writable, r.tasks)
      && forall i :: 0 <= i < |s.origins| && i != o ==> r.origins[i] == s.origins[i]
  {
    var origin, r := s.origins[o], BeginTurn(s, k, o);
    assert Sound(o, origin, s.sockets[k].writable, s.tasks);
    ScriptBegins(origin);
    var speech := Json(FindSpeechStarted(CallerEvents(origin.events)).value);
    AtPointSends(Plan(origin), [], speech, AfterSpeech(origin), s.sockets[k].writable);
    assert r.origins[o] == origin.(place := InPending, sent := if s.sockets[k].writable then [speech] else []);
    hide AtPoint, Script, FindSpeechStarted, CallerEvents, Tail, SilenceMs;
    assert Plan(r.origins[o]) == Plan(origin) && AfterSpeech(r.origins[o]) == AfterSpeech(origin);
  }

  /** Every owner of an origin in `r` owned it before, or owns `o` where `o` is placed now. */
  ghost predicate OwnersKeep(s: State, r: State, o: nat)
    requires o < |r.origins|
  {
    && (forall k :: 0 <= k < |r.sockets| && (r.sockets[k].handler.Greeting? || r.sockets[k].handler.StartingTurn?) ==>
          k < |s.sockets| && r.sockets[k].handler == s.sockets[k].handler && r.sockets[k].handler.origin != o)
    && (forall k :: 0 <= k < |r.sockets| && r.sockets[k].pending.Some? ==>
          if r.sockets[k].pending.value.origin == o then r.origins[o].place.InPending?
          else k < |s.sockets| && r.sockets[k].pending == s.sockets[k].pending)
    && (forall t :: 0 <= t < |r.tasks| && IsStage(r.tasks[t].body) ==>
          if OriginOf(r.tasks[t].body) == Some(o) then r.origins[o].place == InTask(t)
          else t < |s.tasks| && SameOrAborted(s.tasks[t], r.tasks[t]))
  }

  lemma OwnersPlaced(s: State, r: State, o: nat)
    requires Placed(s.sockets, s.tasks, s.origins) && o < |s.origins| == |r.origins| && OwnersKeep(s, r, o)
    requires forall i :: 0 <= i < |s.origins| && i != o ==> r.origins[i] == s.origins[i]
    ensures Placed(r.sockets, r.tasks, r.origins)
  {
  }

  lemma OriginMoves(s: State, r: State, o: nat)
    requires Turns(s) && OnlyWeakened(s, r, o) && o < |s.origins| == |r.origins| && OwnersKeep(s, r, o)
    requires r.homes[o] < |r.sockets| && Sound(o, r.origins[o], r.sockets[r.homes[o]].writable, r.tasks)
    ensures Turns(r)
  {
    OthersSound(s, r, o);
    OwnersPlaced(s, r, o);
    hide Sound, Placed, OwnersKeep;
  }

  /** Origin `o` moves with socket `k` and one new task; nobody else held it. */
  lemma OneMoves(s: State, r: State, k: nat, o: nat)
    requires |s.homes| == |s.origins| == |r.origins| && o < |s.origins| && r.homes == s.homes
    requires k < |s.sockets| == |r.sockets| && r.sockets == s.sockets[k := r.sockets[k]]
    requires r.sockets[k].handler.Free? || r.sockets[k].handler == s.sockets[k].handler
    requires r.sockets[k].writable == s.sockets[k].writable
    requires r.sockets[k].pending.None? || r.sockets[k].pending == s.sockets[k].pending
      || (r.sockets[k].pending.value.origin == o && r.origins[o].place.InPending?)
    requires |r.tasks| == |s.tasks| + 1 && forall t :: 0 <= t < |s.tasks| ==>
      SameOrAborted(s.tasks[t], r.tasks[t]) || !(IsStage(s.tasks[t].body) || IsStage(r.tasks[t].body))
    requires IsStage(r.tasks[|s.tasks|].body) ==>
      OriginOf(r.tasks[|s.tasks|].body) == Some(o) && r.origins[o].place == InTask(|s.tasks|)
    requires r.origins == s.origins[o := r.origins[o]]
    requires NobodyElseHolds(s, r, k, o)
    ensures OnlyWeakened(s, r, o) && OwnersKeep(s, r, o)
  {
  }

  ghost predicate NobodyElseHolds(s: State, r: State, k: nat, o: nat)
    requires k < |s.sockets| == |r.sockets|
  {
    && (forall i :: 0 <= i < |r.sockets| && (r.sockets[i].handler.Greeting? || r.sockets[i].handler.StartingTurn?) ==>
          r.sockets[i].handler.origin != o)
    && (forall i :: 0 <= i < |s.sockets| && (i != k || r.sockets[k].pending == s.sockets[k].pending) ==>
          (s.sockets[i].pending.Some? ==> s.sockets[i].pending.value.origin != o))
    && (forall t :: 0 <= t < |s.tasks| && IsStage(s.tasks[t].body) ==> OriginOf(s.tasks[t].body) != Some(o))
  }

  /** No handler but the socket's own, no pending turn and no task holds an origin that is in the handler of `k`. */
  lemma HeldByHandler(s: State, k: nat, o: nat)
    requires Formed(s) && Turns(s) && k < |s.sockets| && OriginAt(s.homes, k, o) && s.origins[o].place.InHandler?
    ensures forall i :: 0 <= i < |s.sockets| && i != k ==>
      (s.sockets[i].handler.Greeting? || s.sockets[i].handler.StartingTurn? ==> s.sockets[i].handler.origin != o)
    ensures forall i :: 0 <= i < |s.sockets| && s.sockets[i].pending.Some? ==> s.sockets[i].pending.value.origin != o
    ensures forall t :: 0 <= t < |s.tasks| && IsStage(s.tasks[t].body) ==> OriginOf(s.tasks[t].body) != Some(o)
  {
    assert forall i :: 0 <= i < |s.sockets| ==> SocketAt(s.homes, |s.tasks|, i, s.sockets[i]);
    hide AllSound;
  }

  lemma BeginTurnTurns(s: State, k: nat, o: nat)
    requires Formed(s) && Turns(s) && k < |s.sockets| && s.sockets[k].handler == StartingTurn(o)
    requires s.sockets[k].pending.None? && OriginAt(s.homes, k, o)
    ensures Turns(BeginTurn(s, k, o))
  {
    var r := BeginTurn(s, k, o);
    BeginTurnSound(s, k, o);
    AnnounceShape(s, o);
    HeldByHandler(s, k, o);
    assert s.homes[o] == k && |s.homes| == |s.origins|;
    hide AnnounceSpeech, SilenceMs, Formed, Turns, Sound;
    assert r.origins[o].place == InPending && r.origins == s.origins[o := r.origins[o]];
    assert r.tasks[..|s.tasks|] == s.tasks;
    OneMoves(s, r, k, o);
    hide BeginTurn, OnlyWeakened, OwnersKeep;
    OriginMoves(s, r, o);
  }

  lemma GreetSound(s: State, k: nat, o: nat)
    requires Formed(s) && Turns(s) && k < |s.sockets| && s.sockets[k].handler == Greeting(o) && OriginAt(s.homes, k, o)
    ensures Sound(o, Greet(s, k, o).origins[o], s.sockets[k].writable, Greet(s, k, o).tasks)
  {
    var r, origin := Greet(s, k, o), s.origins[o];
    assert Sound(o, origin, s.sockets[k].writable, s.tasks) && origin.greeting;
    assert AtPoint(Plan(r.origins[o]), [], AsJson(ResponseEvents(origin.events)), true);
    hide Formed, Turns, ResponseEvents, AbortIn, Script, AtPoint;
  }

  lemma GreetTurns(s: State, k: nat, o: nat)
    requires Formed(s) && Turns(s) && k < |s.sockets| && s.sockets[k].handler == Greeting(o) && OriginAt(s.homes, k, o)
    ensures Turns(Greet(s, k, o))
  {
    var r := Greet(s, k, o);
    GreetSound(s, k, o);
    HeldByHandlerHere(s, k, o);
    HeldByHandler(s, k, o);
    assert s.homes[o] == k && |s.homes| == |s.origins|;
    hide Formed, Turns, Sound, ResponseEvents;
    assert forall t :: 0 <= t < |s.tasks| ==> SameOrAborted(s.tasks[t], r.tasks[t]);
    hide AbortIn;
    OneMoves(s, r, k, o);
    hide Greet, OnlyWeakened, OwnersKeep;
    OriginMoves(s, r, o);
  }

  lemma HeldByHandlerHere(s: State, k: nat, o: nat)
    requires Turns(s) && k < |s.sockets| && o < |s.origins|
    requires s.sockets[k].handler == Greeting(o) || s.sockets[k].handler == StartingTurn(o)
    ensures s.origins[o].place.InHandler?
  {
    hide AllSound;
  }

  lemma CompleteTurnSound(s: State, t: nat, k: nat, o: nat)
    requires Formed(s) && Turns(s) && t < |s.tasks| && s.tasks[t].body.Timer?
    requires k == s.tasks[t].socket < |s.sockets| && o == s.tasks[t].body.origin && OriginAt(s.homes, k, o)
    requires s.origins[o].place.InPending?
    ensures Sound(o, CompleteTurn(s, t).origins[o], s.sockets[k].writable, CompleteTurn(s, t).tasks)
  {
    var r, origin := CompleteTurn(s, t), s.origins[o];
    assert Sound(o, origin, s.sockets[k].writable, s.tasks);
    hide Formed, Turns, CallerEvents, WithoutSpeechStarted, AtPoint, Script, Tail, AbortIn;
    assert Plan(r.origins[o]) == Plan(origin);
    hide Plan;
  }

  lemma CompleteTurnTurns(s: State, t: nat)
    requires Formed(s) && Turns(s) && t < |s.tasks| && s.tasks[t].body.Timer? && s.tasks[t].socket < |s.sockets|
    requires s.sockets[s.tasks[t].socket].pending.Some?
    requires s.sockets[s.tasks[t].socket].pending.value.origin == s.tasks[t].body.origin
    ensures Turns(CompleteTurn(s, t))
  {
    var k, o, r := s.tasks[t].socket, s.tasks[t].body.origin, CompleteTurn(s, t);
    HeldByPending(s, k, o);
    CompleteTurnSound(s, t, k, o);
    assert s.homes[o] == k && |s.homes| == |s.origins|;
    hide Formed, Turns, Sound, CallerEvents, WithoutSpeechStarted;
    assert forall i :: 0 <= i < |s.tasks| && i != t ==> SameOrAborted(s.tasks[i], r.tasks[i]);
    assert !IsStage(r.tasks[t].body);
    hide AbortIn;
    OneMoves(s, r, k, o);
    hide CompleteTurn, OnlyWeakened, OwnersKeep;
    OriginMoves(s, r, o);
  }

  /** No other socket, and no task, holds the origin of a pending turn. */
  lemma HeldByPending(s: State, k: nat, o: nat)
    requires Formed(s) && Turns(s) && k < |s.sockets| && s.sockets[k].pending.Some?
    requires s.sockets[k].pending.value.origin == o
    ensures OriginAt(s.homes, k, o) && s.origins[o].place.InPending?
    ensures forall i :: 0 <= i < |s.sockets| ==>
      (s.sockets[i].handler.Greeting? || s.sockets[i].handler.StartingTurn? ==> s.sockets[i].handler.origin != o)
    ensures forall i :: 0 <= i < |s.sockets| && i != k ==>
      (s.sockets[i].pending.Some? ==> s.sockets[i].pending.value.origin != o)
    ensures forall t :: 0 <= t < |s.tasks| && IsStage(s.tasks[t].body) ==> OriginOf(s.tasks[t].body) != Some(o)
  {
    assert forall i :: 0 <= i < |s.sockets| ==> SocketAt(s.homes, |s.tasks|, i, s.sockets[i]);
    hide AllSound;
  }

  // ---------------------------------------------------------------- a response task moves on

  /** A response task's step keeps the turns once its own origin is sound. */
  lemma StageTurns(s: State, r: State, t: nat, o: nat)
    requires Formed(s) && Turns(s) && t < |s.tasks| && IsStage(s.tasks[t].body) && OriginOf(s.tasks[t].body) == Some(o)
    requires StageShape(s, r, t) && OnlyWeakened(s, r, o)
    requires IsStage(r.tasks[t].body) ==> OriginOf(r.tasks[t].body) == Some(o) && r.origins[o].place == InTask(t)
    requires o < |s.origins| && s.homes[o] < |r.sockets|
    requires Sound(o, r.origins[o], r.sockets[s.homes[o]].writable, r.tasks)
    ensures Turns(r)
  {
    hide Formed, Sound, AllSound;
    assert s.origins[o].place == InTask(t);
    assert OwnersKeep(s, r, o) by { hide OnlyWeakened; }
    hide Turns, Placed, StageShape, OwnersKeep;
    OriginMoves(s, r, o);
  }

  /** The origin of a task sits in that task, ahead of what the task has left to send. */
  lemma StageOrigin(s: State, t: nat)
    requires Formed(s) && Turns(s) && t < |s.tasks| && IsStage(s.tasks[t].body)
    ensures var o := OriginOf(s.tasks[t].body).value;
      && o < |s.homes| == |s.origins| && s.homes[o] == s.tasks[t].socket < |s.sockets|
      && var origin := s.origins[o];
      && origin.place == InTask(t) && origin.events == Script(origin.scenario)
      && (origin.greeting ==> s.tasks[t].body.ResponseStage?)
      && AtPoint(Plan(origin), origin.sent, Remaining(origin, s.tasks[t].body),
                 Writable(s, o) && !s.tasks[t].aborted)
  {
    var o := OriginOf(s.tasks[t].body).value;
    assert BodyAt(s.homes, s.tasks[t].socket, s.tasks[t].body);
    assert Sound(o, s.origins[o], s.sockets[s.homes[o]].writable, s.tasks);
    hide Plan, AtPoint, Remaining, Script;
  }

  /** What one resumption makes of a task, of its origin and of its socket. */
  datatype Move = Move(body: Body, origin: Origin, writable: bool)

  function Speaks(origin: Origin, writable: bool, wire: Wire): Origin {
    if writable then origin.(sent := origin.sent + [wire]) else origin
  }

  function CallerMove(o: nat, origin: Origin, writable: bool, aborted: bool, rest: seq<ServerEvent>): Move {
    Move(if aborted || |rest| <= 1 then ModeStage(o) else CallerStage(o, rest[1..]),
         if aborted || rest == [] then origin else Speaks(origin, writable, Json(rest[0])), writable)
  }

  function ModeMove(o: nat, origin: Origin, writable: bool, aborted: bool): Move {
    if aborted then Move(Ended, origin.(place := Over(false)), writable)
    else
      match origin.scenario.mode
      case ProviderClose => Move(Ended, origin.(place := Over(writable)), false)
      case ProtocolError => Move(Ended, Speaks(origin, writable, InvalidJson).(place := Over(writable)), writable)
      case _ => Move(ResponseStage(o, ResponseEvents(origin.events)), origin, writable)
  }

  function ResponseMove(o: nat, origin: Origin, writable: bool, aborted: bool, current: bool, rest: seq<ServerEvent>): Move {
    if rest == [] then Move(Ended, origin.(place := Over(writable && !aborted)), writable)
    else if aborted || !current then Move(Ended, origin.(place := Over(false)), writable)
    else
      var after := Speaks(origin, writable, Json(rest[0]));
      if |rest| == 1 then Move(Ended, after.(place := Over(writable)), writable)
      else Move(ResponseStage(o, rest[1..]), after, writable)
  }

  function MoveOf(s: State, t: nat): Move
    requires Formed(s) && t < |s.tasks| && IsStage(s.tasks[t].body)
    requires OriginOf(s.tasks[t].body).value < |s.origins|
  {
    var o, aborted := OriginOf(s.tasks[t].body).value, s.tasks[t].aborted;
    match s.tasks[t].body
    case CallerStage(_, rest) => CallerMove(o, s.origins[o], Writable(s, o), aborted, rest)
    case ModeStage(_) => ModeMove(o, s.origins[o], Writable(s, o), aborted)
    case ResponseStage(_, rest) =>
      var current := Count(s.generations, s.calls[s.tasks[t].socket]) == s.origins[o].generation;
      ResponseMove(o, s.origins[o], Writable(s, o), aborted, current, rest)
  }

  /** One task's body changes, one origin's record changes, and its socket may stop being writable. */
  ghost predicate Outcome(s: State, r: State, t: nat, o: nat, move: Move)
    requires t < |s.tasks| && o < |s.origins| == |s.homes| && s.homes[o] < |s.sockets|
  {
    var k := s.homes[o];
    && r == s.(tasks := s.tasks[t := s.tasks[t].(body := move.body)], origins := s.origins[o := move.origin],
               trace := r.trace, sockets := s.sockets[k := s.sockets[k].(writable := move.writable)])
    && (move.writable ==> s.sockets[k].writable)
  }

  /** `w` is `s` with another record for `o`, and more trace. */
  ghost predicate Wrote(s: State, w: State, o: nat, origin: Origin)
    requires o < |s.origins|
  {
    w == s.(origins := s.origins[o := origin], trace := w.trace)
  }

  lemma WriteWrote(s: State, o: nat, wire: Wire, tag: Option<nat>)
    requires o < |s.homes| == |s.origins| && s.homes[o] < |s.sockets| == |s.calls|
    ensures Wrote(s, s, o, s.origins[o])
    ensures Wrote(s, Write(s, o, wire, tag), o, Speaks(s.origins[o], Writable(s, o), wire))
  {
  }

  lemma EndOutcome(s: State, w: State, t: nat, o: nat, origin: Origin, complete: bool)
    requires t < |s.tasks| && o < |s.origins| == |s.homes| && s.homes[o] < |s.sockets| && Wrote(s, w, o, origin)
    ensures var k := s.homes[o]; var after := origin.(place := Over(complete));
      && Outcome(s, Finish(w, t, o, complete), t, o, Move(Ended, after, s.sockets[k].writable))
      && Outcome(s, CloseSocket(Finish(w, t, o, complete), k), t, o, Move(Ended, after, false))
  {
  }

  lemma GoOnOutcome(s: State, w: State, t: nat, o: nat, origin: Origin, body: Body)
    requires t < |s.tasks| && o < |s.origins| == |s.homes| && s.homes[o] < |s.sockets| && Wrote(s, w, o, origin)
    ensures Outcome(s, Continue(w, t, o, body), t, o, Move(body, origin, s.sockets[s.homes[o]].writable))
  {
  }

  lemma CallerStageMoves(s: State, t: nat, o: nat)
    requires Formed(s) && t < |s.tasks| && s.tasks[t].body.CallerStage? && o == s.tasks[t].body.origin
    requires o < |s.origins| && s.homes[o] < |s.sockets|
    ensures Outcome(s, OnCallerStage(s, t), t, o, MoveOf(s, t))
  {
    var rest := s.tasks[t].body.rest;
    var body := if s.tasks[t].aborted || |rest| <= 1 then ModeStage(o) else CallerStage(o, rest[1..]);
    assert |s.homes| == |s.origins| && |s.calls| == |s.sockets|;
    hide Formed, Outcome, Continue, Wrote, Write;
    if rest == [] || s.tasks[t].aborted {
      WriteWrote(s, o, InvalidJson, None);
      GoOnOutcome(s, s, t, o, s.origins[o], body);
    } else {
      WriteWrote(s, o, Json(rest[0]), None);
      GoOnOutcome(s, Write(s, o, Json(rest[0]), None), t, o, Speaks(s.origins[o], Writable(s, o), Json(rest[0])), body);
    }
  }

  lemma ModeStageMoves(s: State, t: nat, o: nat)
    requires Formed(s) && t < |s.tasks| && s.tasks[t].body.ModeStage? && o == s.tasks[t].body.origin
    requires o < |s.origins| && s.homes[o] == s.tasks[t].socket < |s.sockets|
    ensures Outcome(s, OnModeStage(s, t), t, o, MoveOf(s, t))
  {
    var origin, writable := s.origins[o], Writable(s, o);
    assert |s.homes| == |s.origins| && |s.calls| == |s.sockets|;
    hide Formed, Outcome, Continue, Finish, CloseSocket, Wrote, Write, ResponseEvents;
    WriteWrote(s, o, InvalidJson, None);
    if s.tasks[t].aborted {
      EndOutcome(s, s, t, o, origin, false);
    } else {
      match origin.scenario.mode
      case ProviderClose => EndOutcome(s, s, t, o, origin, writable);
      case ProtocolError =>
        EndOutcome(s, Write(s, o, InvalidJson, None), t, o, Speaks(origin, writable, InvalidJson), writable);
      case _ => GoOnOutcome(s, s, t, o, origin, ResponseStage(o, ResponseEvents(origin.events)));
    }
  }

  lemma ResponseStageMoves(s: State, t: nat, o: nat)
    requires Formed(s) && t < |s.tasks| && s.tasks[t].body.ResponseStage? && o == s.tasks[t].body.origin
    requires o < |s.origins| && s.homes[o] < |s.sockets|
    ensures Outcome(s, OnResponseStage(s, t), t, o, MoveOf(s, t))
  {
    var rest, origin, writable := s.tasks[t].body.rest, s.origins[o], Writable(s, o);
    assert |s.homes| == |s.origins| && |s.calls| == |s.sockets| && s.tasks[t].socket < |s.sockets|;
    hide Formed, Outcome, Continue, Finish, Wrote, Write;
    if rest == [] {
      WriteWrote(s, o, InvalidJson, None);
      EndOutcome(s, s, t, o, origin, writable && !s.tasks[t].aborted);
    } else {
      var w := Write(s, o, Json(rest[0]), Some(origin.generation));
      var after := Speaks(origin, writable, Json(rest[0]));
      WriteWrote(s, o, Json(rest[0]), Some(origin.generation));
      EndOutcome(s, s, t, o, origin, false);
      EndOutcome(s, w, t, o, after, writable);
      GoOnOutcome(s, w, t, o, after, ResponseStage(o, rest[1..]));
    }
  }

  lemma TaskMoves(s: State, t: nat)
    requires Formed(s) && t < |s.tasks| && IsStage(s.tasks[t].body)
    ensures var o := OriginOf(s.tasks[t].body).value;
      && o < |s.origins| && s.homes[o] == s.tasks[t].socket < |s.sockets|
      && Outcome(s, Step(s, TaskResumes(t)), t, o, MoveOf(s, t))
  {
    assert BodyAt(s.homes, s.tasks[t].socket, s.tasks[t].body);
    var o := OriginOf(s.tasks[t].body).value;
    hide Outcome, MoveOf, OnCallerStage, OnModeStage, OnResponseStage;
    match s.tasks[t].body
    case CallerStage(_, _) => CallerStageMoves(s, t, o);
    case ModeStage(_) => ModeStageMoves(s, t, o);
    case _ => ResponseStageMoves(s, t, o);
  }

  /** The origin stays ahead of what its task has left, or the task is over and the record with it. */
  ghost predicate MoveSound(t: nat, o: nat, aborted: bool, move: Move) {
    var origin := move.origin;
    && origin.events == Script(origin.scenario)
    && if IsStage(move.body) then
         && origin.place == InTask(t) && OriginOf(move.body) == Some(o)
         && (origin.greeting ==> move.body.ResponseStage?)
         && AtPoint(Plan(origin), origin.sent, Remaining(origin, move.body), move.writable && !aborted)
       else
         && origin.place.Over? && move.body == Ended && origin.sent <= Plan(origin)
         && (origin.place.complete ==> origin.sent == Plan(origin))
  }

  /** Sending the next caller event, or skipping them all, keeps the record ahead of what is left. */
  lemma CallerPoint(plan: seq<Wire>, sent: seq<Wire>, rest: seq<ServerEvent>, tail: seq<Wire>, whole: bool)
    requires AtPoint(plan, sent, AsJson(rest) + tail, whole)
    ensures rest == [] ==> AtPoint(plan, sent, tail, whole)
    ensures !whole ==> AtPoint(plan, sent, tail, false)
    ensures rest != [] ==> AtPoint(plan, if whole then sent + [Json(rest[0])] else sent, AsJson(rest[1..]) + tail, whole)
    ensures |rest| == 1 ==> AsJson(rest[1..]) + tail == tail
  {
    if rest == [] {
      assert AsJson(rest) + tail == tail;
    } else {
      assert AsJson(rest) + tail == [Json(rest[0])] + (AsJson(rest[1..]) + tail);
      AtPointSends(plan, sent, Json(rest[0]), AsJson(rest[1..]) + tail, whole);
    }
    if !whole {
      AtPointWeakens(plan, sent, AsJson(rest), tail);
    }
    hide AtPoint;
  }

  lemma CallerMoveSound(t: nat, o: nat, origin: Origin, writable: bool, aborted: bool, rest: seq<ServerEvent>)
    requires origin.events == Script(origin.scenario) && origin.place == InTask(t) && !origin.greeting
    requires AtPoint(Plan(origin), origin.sent, Remaining(origin, CallerStage(o, rest)), writable && !aborted)
    ensures MoveSound(t, o, aborted, CallerMove(o, origin, writable, aborted, rest))
  {
    var plan, tail, whole := Plan(origin), Tail(origin.scenario), writable && !aborted;
    var move := CallerMove(o, origin, writable, aborted, rest);
    assert Plan(move.origin) == plan && move.origin.scenario == origin.scenario;
    hide Plan, Script, Tail, AtPoint, AsJson;
    CallerPoint(plan, origin.sent, rest, tail, whole);
  }

  /** An aborted task ends, and so does one that closes its socket. */
  lemma EndMoveSound(t: nat, o: nat, origin: Origin, writable: bool, aborted: bool)
    requires origin.events == Script(origin.scenario) && origin.place == InTask(t) && !origin.greeting
    requires AtPoint(Plan(origin), origin.sent, Tail(origin.scenario), writable && !aborted)
    requires aborted || origin.scenario.mode.ProviderClose?
    ensures MoveSound(t, o, aborted, ModeMove(o, origin, writable, aborted))
  {
    var plan, move := Plan(origin), ModeMove(o, origin, writable, aborted);
    assert Plan(move.origin) == plan && move.origin.scenario == origin.scenario;
    assert origin.scenario.mode.ProviderClose? ==> Tail(origin.scenario) == [];
    hide Plan, Script, Tail;
    AtPointIsPrefix(plan, origin.sent, Tail(origin.scenario), writable && !aborted);
    hide AtPoint;
  }

  lemma BrokenMoveSound(t: nat, o: nat, origin: Origin, writable: bool, aborted: bool)
    requires origin.events == Script(origin.scenario) && origin.place == InTask(t) && !origin.greeting
    requires AtPoint(Plan(origin), origin.sent, Tail(origin.scenario), writable && !aborted)
    requires !aborted && origin.scenario.mode.ProtocolError?
    ensures MoveSound(t, o, aborted, ModeMove(o, origin, writable, aborted))
  {
    var plan, move := Plan(origin), ModeMove(o, origin, writable, aborted);
    assert Plan(move.origin) == plan && move.origin.scenario == origin.scenario;
    assert Tail(origin.scenario) == [InvalidJson] + [];
    hide Plan, Script, Tail;
    AtPointSends(plan, origin.sent, InvalidJson, [], writable);
    AtPointIsPrefix(plan, if writable then origin.sent + [InvalidJson] else origin.sent, [], writable);
    hide AtPoint;
  }

  lemma AnswerMoveSound(t: nat, o: nat, origin: Origin, writable: bool, aborted: bool)
    requires origin.events == Script(origin.scenario) && origin.place == InTask(t) && !origin.greeting
    requires AtPoint(Plan(origin), origin.sent, Tail(origin.scenario), writable && !aborted)
    requires !aborted && !origin.scenario.mode.ProviderClose? && !origin.scenario.mode.ProtocolError?
    ensures MoveSound(t, o, aborted, ModeMove(o, origin, writable, aborted))
  {
    assert Tail(origin.scenario) == AsJson(ResponseEvents(origin.events));
    hide AtPoint, Plan, Script, Tail, AsJson, ResponseEvents;
  }

  lemma ModeMoveSound(t: nat, o: nat, origin: Origin, writable: bool, aborted: bool)
    requires origin.events == Script(origin.scenario) && origin.place == InTask(t) && !origin.greeting
    requires AtPoint(Plan(origin), origin.sent, Remaining(origin, ModeStage(o)), writable && !aborted)
    ensures MoveSound(t, o, aborted, ModeMove(o, origin, writable, aborted))
  {
    hide MoveSound, ModeMove, AtPoint, Plan, Script, Tail;
    if aborted || origin.scenario.mode.ProviderClose? {
      EndMoveSound(t, o, origin, writable, aborted);
    } else if origin.scenario.mode.ProtocolError? {
      BrokenMoveSound(t, o, origin, writable, aborted);
    } else {
      AnswerMoveSound(t, o, origin, writable, aborted);
    }
  }

  /** The next response event goes out, or would have on a writable socket. */
  lemma AnsweringMoveSound(t: nat, o: nat, origin: Origin, writable: bool, rest: seq<ServerEvent>)
    requires origin.events == Script(origin.scenario) && origin.place == InTask(t)
    requires AtPoint(Plan(origin), origin.sent, AsJson(rest), writable) && rest != []
    ensures MoveSound(t, o, false, ResponseMove(o, origin, writable, false, true, rest))
  {
    var plan, after := Plan(origin), Speaks(origin, writable, Json(rest[0]));
    assert Plan(after) == plan && Plan(after.(place := Over(writable))) == plan;
    hide Plan, Script, Tail, AtPoint, AsJson;
    RestSends(plan, origin.sent, rest, writable);
  }

  lemma ResponseMoveSound(t: nat, o: nat, origin: Origin, writable: bool, aborted: bool, current: bool,
                          rest: seq<ServerEvent>)
    requires origin.events == Script(origin.scenario) && origin.place == InTask(t)
    requires AtPoint(Plan(origin), origin.sent, Remaining(origin, ResponseStage(o, rest)), writable && !aborted)
    ensures MoveSound(t, o, aborted, ResponseMove(o, origin, writable, aborted, current, rest))
  {
    var plan, whole := Plan(origin), writable && !aborted;
    if rest != [] && !aborted && current {
      AnsweringMoveSound(t, o, origin, writable, rest);
      hide MoveSound, AtPoint;
    } else {
      assert forall complete: bool :: Plan(origin.(place := Over(complete))) == plan;
      hide Plan, Script, Tail;
      AtPointIsPrefix(plan, origin.sent, AsJson(rest), whole);
      hide AtPoint;
    }
  }

  lemma RestSends(plan: seq<Wire>, sent: seq<Wire>, rest: seq<ServerEvent>, whole: bool)
    requires rest != [] && AtPoint(plan, sent, AsJson(rest), whole)
    ensures var later := if whole then sent + [Json(rest[0])] else sent;
      && AtPoint(plan, later, AsJson(rest[1..]), whole)
      && later <= plan && (whole && |rest| == 1 ==> later == plan)
  {
  }

  lemma TaskSound(s: State, t: nat)
    requires Formed(s) && Turns(s) && t < |s.tasks| && IsStage(s.tasks[t].body)
    requires OriginOf(s.tasks[t].body).value < |s.origins|
    ensures MoveSound(t, OriginOf(s.tasks[t].body).value, s.tasks[t].aborted, MoveOf(s, t))
  {
    StageOrigin(s, t);
    var o, aborted := OriginOf(s.tasks[t].body).value, s.tasks[t].aborted;
    var origin, writable := s.origins[o], Writable(s, o);
    hide MoveSound, Turns, AtPoint, Plan, Script, Remaining, CallerMove, ModeMove, ResponseMove;
    match s.tasks[t].body
    case CallerStage(_, rest) => CallerMoveSound(t, o, origin, writable, aborted, rest);
    case ModeStage(_) => ModeMoveSound(t, o, origin, writable, aborted);
    case ResponseStage(_, rest) =>
      var current := Count(s.generations, s.calls[s.tasks[t].socket]) == origin.generation;
      ResponseMoveSound(t, o, origin, writable, aborted, current, rest);
  }

  lemma MoveKeeps(s: State, r: State, t: nat, o: nat, move: Move)
    requires t < |s.tasks| && o < |s.origins| == |s.homes| && s.homes[o] < |s.sockets|
    requires IsStage(s.tasks[t].body) && OriginOf(s.tasks[t].body) == Some(o)
    requires Outcome(s, r, t, o, move) && MoveSound(t, o, s.tasks[t].aborted, move)
    ensures OnlyWeakened(s, r, o) && Sound(o, r.origins[o], r.sockets[s.homes[o]].writable, r.tasks)
    ensures IsStage(r.tasks[t].body) ==> OriginOf(r.tasks[t].body) == Some(o) && r.origins[o].place == InTask(t)
  {
    hide AtPoint, Plan, Remaining, Script;
  }

  lemma MoveTurns(s: State, r: State, t: nat, o: nat, move: Move)
    requires Formed(s) && Turns(s) && t < |s.tasks| && IsStage(s.tasks[t].body) && OriginOf(s.tasks[t].body) == Some(o)
    requires o < |s.origins| == |s.homes| && s.homes[o] < |s.sockets| && StageShape(s, r, t)
    requires Outcome(s, r, t, o, move) && MoveSound(t, o, s.tasks[t].aborted, move)
    ensures Turns(r)
  {
    assert |r.origins| == |s.origins| && |r.sockets| == |s.sockets| && |r.tasks| == |s.tasks|;
    hide Formed, Turns, StageShape, MoveSound, Outcome, OnlyWeakened, Sound;
    MoveKeeps(s, r, t, o, move);
    StageTurns(s, r, t, o);
  }

  lemma TaskTurns(s: State, t: nat)
    requires Formed(s) && Turns(s) && Enabled(s, TaskResumes(t))
    ensures Turns(Step(s, TaskResumes(t)))
  {
    assert t < |s.tasks| && IsStage(s.tasks[t].body) && |s.homes| == |s.origins|;
    hide Formed, Turns, Step, Enabled, StageShape, MoveOf, MoveSound, Outcome;
    TaskShape(s, t);
    TaskMoves(s, t);
    TaskSound(s, t);
    MoveTurns(s, Step(s, TaskResumes(t)), t, OriginOf(s.tasks[t].body).value, MoveOf(s, t));
  }

  // ---------------------------------------------------------------- every step, every run

  lemma UpdateTurns(s: State, k: nat, tools: seq<SessionTool>)
    requires Formed(s) && Turns(s) && k < |s.sockets|
    ensures Turns(s.(sockets := s.sockets[k := s.sockets[k].(tools := tools, handler := Updating)]))
  {
    assert |s.homes| == |s.origins|;
    hide Turns, Formed;
    NothingMoves(s, s.(sockets := s.sockets[k := s.sockets[k].(tools := tools, handler := Updating)]));
  }

  lemma MessageTurns(s: State, k: nat, m: Message)
    requires Formed(s) && Turns(s) && Enabled(s, Deliver(k, m))
    ensures Turns(OnMessage(s, k, m))
  {
    assert |s.calls| == |s.sockets|;
    hide Turns, RestartTimer, StartTurn, StartGreeting, CloseSocket, Formed;
    CloseTurns(s, k);
    if !m.Malformed? && s.calls[k] in s.scenarios {
      match m
      case SessionUpdate(tools) => UpdateTurns(s, k, tools);
      case ResponseCreate => StartGreetingTurns(s, k);
      case AppendAudio =>
        if s.sockets[k].pending.Some? {
          RestartTurns(s, k);
        } else {
          StartTurnTurns(s, k);
        }
      case _ =>
    }
  }

  lemma HandlerTurns(s: State, k: nat)
    requires Formed(s) && Turns(s) && k < |s.sockets|
    requires s.sockets[k].handler.StartingTurn? ==> s.sockets[k].pending.None?
    ensures Turns(OnHandler(s, k))
  {
    assert SocketAt(s.homes, |s.tasks|, k, s.sockets[k]);
    hide Greet, BeginTurn, Turns, Formed;
    match s.sockets[k].handler
    case Greeting(o) => GreetTurns(s, k, o);
    case StartingTurn(o) => BeginTurnTurns(s, k, o);
    case _ => FreeTurns(s, k);
  }

  lemma FreeTurns(s: State, k: nat)
    requires Formed(s) && Turns(s) && k < |s.sockets|
    ensures Turns(s.(sockets := s.sockets[k := s.sockets[k].(handler := Free)]))
  {
    assert |s.homes| == |s.origins|;
    hide Turns, Formed;
    NothingMoves(s, s.(sockets := s.sockets[k := s.sockets[k].(handler := Free)]));
  }

  lemma TimerTurns(s: State, t: nat)
    requires Formed(s) && Turns(s) && t < |s.tasks| && s.tasks[t].body.Timer?
    ensures Turns(OnTimer(s, t))
  {
    TimerSettles(s, t);
    assert s.tasks[t].socket < |s.sockets|;
    hide Turns, CompleteTurn;
    var pending := s.sockets[s.tasks[t].socket].pending;
    if pending.Some? && pending.value.origin == s.tasks[t].body.origin {
      CompleteTurnTurns(s, t);
    }
  }

  lemma StepTurns(s: State, e: Event)
    requires Formed(s) && Live(s) && Turns(s) && Enabled(s, e)
    ensures Turns(Step(s, e))
  {
    hide OnMessage, OnHandler, OnClose, OnConnect, OnStop, OnFinally, OnTimer, OnUntracked, Formed, CloseSocket;
    hide Placed, AllSound, ResponsesLive, TimersLate;
    match e
    case Connect(c, authorised) => ConnectTurns(s, c, authorised);
    case PeerCloses(k) => CloseTurns(s, k);
    case CloseFires(k) => CloseTurns(s, k);
    case Deliver(k, m) => MessageTurns(s, k, m);
    case ResumeHandler(k) => HandlerTurns(s, k);
    case TimerWakes(t) => TimerTurns(s, t);
    case TaskResumes(t) => TaskTurns(s, t);
    case FinallyRuns(t) => FinallyTurns(s, t);
    case TaskUntracked(t) => UntrackedTurns(s, t);
    case StopServer => StopTurns(s);
    case _ =>
  }

  lemma {:induction false} RunTurns(events: seq<Event>)
    requires Run(events).Some?
    ensures Turns(Run(events).value)
  {
    if events != [] {
      RunTurns(events[..|events| - 1]);
      RunLive(events[..|events| - 1]);
      StepTurns(Run(events[..|events| - 1]).value, events[|events| - 1]);
    }
  }
}
