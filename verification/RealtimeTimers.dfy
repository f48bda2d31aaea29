/** One live timer and one live response per socket, and the silence before a response. */
module RealtimeTimers {
  import opened Options
  import opened Scripts
  import opened RealtimeModel
  import opened RealtimeForm

  predicate LiveTimer(task: Task) {
    task.body.Timer? && !task.aborted
  }

  predicate LiveResponse(task: Task) {
    IsStage(task.body) && !task.aborted
  }

  /** A live timer is the one its socket's pending turn points to; while the socket is open and the server runs, a
    pending turn does have a live timer. */
  ghost predicate TimersLive(running: bool, sockets: seq<Socket>, tasks: seq<Task>) {
    && (forall t :: 0 <= t < |tasks| && LiveTimer(tasks[t]) ==>
          tasks[t].socket < |sockets| && sockets[tasks[t].socket].pending == Some(Pending(tasks[t].body.origin, t)))
    && (forall k :: 0 <= k < |sockets| && sockets[k].pending.Some? ==>
          var p := sockets[k].pending.value;
          && p.timer < |tasks| && tasks[p.timer].socket == k && !IsStage(tasks[p.timer].body)
          && (sockets[k].open && running ==> LiveTimer(tasks[p.timer]) && tasks[p.timer].body.origin == p.origin))
    && (forall k :: 0 <= k < |sockets| && sockets[k].handler.StartingTurn? ==> sockets[k].pending.None?)
  }

  /** A live response is the one its socket's controller can abort. */
  ghost predicate ResponsesLive(sockets: seq<Socket>, tasks: seq<Task>) {
    && (forall t :: 0 <= t < |tasks| && LiveResponse(tasks[t]) ==>
          tasks[t].socket < |sockets| && sockets[tasks[t].socket].controller == Some(t))
    && (forall k :: 0 <= k < |sockets| && sockets[k].controller.Some? ==>
          var t := sockets[k].controller.value;
          t < |tasks| && tasks[t].socket == k && (IsStage(tasks[t].body) || tasks[t].body.Ended?))
  }

  /** A live timer is due no earlier than the turn's silence after the last audio processed on its socket. */
  ghost predicate TimersLate(now: int, sockets: seq<Socket>, tasks: seq<Task>, origins: seq<Origin>) {
    && (forall t :: 0 <= t < |tasks| && LiveTimer(tasks[t]) ==>
          tasks[t].socket < |sockets| && tasks[t].body.origin < |origins|
          && tasks[t].body.due >=
               sockets[tasks[t].socket].lastAudio + SilenceMs(origins[tasks[t].body.origin].scenario))
    && (forall k :: 0 <= k < |sockets| ==> sockets[k].lastAudio <= now)
  }

  ghost predicate Live(s: State) {
    && TimersLive(s.running, s.sockets, s.tasks)
    && ResponsesLive(s.sockets, s.tasks)
    && TimersLate(s.now, s.sockets, s.tasks, s.origins)
  }

  /** Aborting a socket's controller stops its live response and touches no timer. */
  lemma ControllerAborts(sockets: seq<Socket>, tasks: seq<Task>, k: nat)
    requires ResponsesLive(sockets, tasks) && k < |sockets|
    ensures var r := AbortIn(tasks, sockets[k].controller);
      && (forall t :: 0 <= t < |tasks| ==>
            r[t] == if sockets[k].controller == Some(t) then tasks[t].(aborted := true) else tasks[t])
      && (forall t :: 0 <= t < |tasks| && tasks[t].body.Timer? ==> r[t] == tasks[t])
      && (forall t :: 0 <= t < |tasks| && tasks[t].socket == k ==> !LiveResponse(r[t]))
  {
  }

  /** The pending turn's timer is aborted, and a new one takes its place. */
  lemma RenewTimers(running: bool, sockets: seq<Socket>, tasks: seq<Task>, k: nat, now: int, due: int)
    requires TimersLive(running, sockets, tasks) && k < |sockets| && sockets[k].pending.Some?
    requires sockets[k].handler.Free?
    ensures var o := sockets[k].pending.value.origin;
      TimersLive(running, sockets[k := sockets[k].(lastAudio := now, pending := Some(Pending(o, |tasks|)))],
                 AbortIn(tasks, PendingTimer(sockets[k])) + [Task(k, false, Timer(o, due))])
  {
  }

  lemma RenewResponses(running: bool, sockets: seq<Socket>, tasks: seq<Task>, k: nat, now: int, due: int)
    requires TimersLive(running, sockets, tasks) && ResponsesLive(sockets, tasks)
    requires k < |sockets| && sockets[k].pending.Some?
    ensures var o := sockets[k].pending.value.origin;
      ResponsesLive(sockets[k := sockets[k].(lastAudio := now, pending := Some(Pending(o, |tasks|)))],
                    AbortIn(tasks, PendingTimer(sockets[k])) + [Task(k, false, Timer(o, due))])
  {
  }

  lemma RenewLate(running: bool, now: int, sockets: seq<Socket>, tasks: seq<Task>, origins: seq<Origin>, k: nat)
    requires TimersLive(running, sockets, tasks) && TimersLate(now, sockets, tasks, origins)
    requires k < |sockets| && sockets[k].pending.Some? && sockets[k].pending.value.origin < |origins|
    ensures var o := sockets[k].pending.value.origin; var due := now + SilenceMs(origins[o].scenario);
      TimersLate(now, sockets[k := sockets[k].(lastAudio := now, pending := Some(Pending(o, |tasks|)))],
                 AbortIn(tasks, PendingTimer(sockets[k])) + [Task(k, false, Timer(o, due))], origins)
  {
    hide SilenceMs;
  }

  lemma RestartRenews(s: State, k: nat)
    requires Formed(s) && k < |s.sockets| && s.sockets[k].pending.Some?
    ensures s.sockets[k].pending.value.origin < |s.origins|
    ensures var r, o := RestartTimer(s, k), s.sockets[k].pending.value.origin;
      && r.running == s.running && r.now == s.now && r.origins == s.origins
      && r.sockets == s.sockets[k := s.sockets[k].(lastAudio := s.now, pending := Some(Pending(o, |s.tasks|)))]
      && r.tasks == AbortIn(s.tasks, PendingTimer(s.sockets[k]))
                    + [Task(k, false, Timer(o, s.now + SilenceMs(s.origins[o].scenario)))]
  {
    assert SocketAt(s.homes, |s.tasks|, k, s.sockets[k]) && |s.homes| == |s.origins|;
    hide Formed, SilenceMs, AbortIn, PendingTimer, Tracked;
  }

  lemma IsLive(s: State)
    requires TimersLive(s.running, s.sockets, s.tasks) && ResponsesLive(s.sockets, s.tasks)
    requires TimersLate(s.now, s.sockets, s.tasks, s.origins)
    ensures Live(s)
  {
    hide TimersLive, ResponsesLive, TimersLate;
  }

  lemma RenewLive(s: State, r: State, k: nat, o: nat)
    requires Live(s) && k < |s.sockets| && s.sockets[k].pending.Some? && s.sockets[k].handler.Free?
    requires o == s.sockets[k].pending.value.origin < |s.origins|
    requires r.running == s.running && r.now == s.now && r.origins == s.origins
    requires r.sockets == s.sockets[k := s.sockets[k].(lastAudio := s.now, pending := Some(Pending(o, |s.tasks|)))]
    requires r.tasks == AbortIn(s.tasks, PendingTimer(s.sockets[k]))
                        + [Task(k, false, Timer(o, s.now + SilenceMs(s.origins[o].scenario)))]
    ensures Live(r)
  {
    var due := s.now + SilenceMs(s.origins[o].scenario);
    assert TimersLive(s.running, s.sockets, s.tasks) && ResponsesLive(s.sockets, s.tasks)
      && TimersLate(s.now, s.sockets, s.tasks, s.origins);
    hide Live, SilenceMs, TimersLive, ResponsesLive, TimersLate, AbortIn, PendingTimer;
    RenewTimers(s.running, s.sockets, s.tasks, k, s.now, due);
    RenewResponses(s.running, s.sockets, s.tasks, k, s.now, due);
    RenewLate(s.running, s.now, s.sockets, s.tasks, s.origins, k);
    IsLive(r);
  }

  lemma RestartLive(s: State, k: nat)
    requires Formed(s) && Live(s) && k < |s.sockets| && s.sockets[k].pending.Some?
    requires s.sockets[k].handler.Free?
    ensures Live(RestartTimer(s, k))
  {
    hide Formed, RestartTimer, SilenceMs, Live, AbortIn, PendingTimer;
    RestartRenews(s, k);
    RenewLive(s, RestartTimer(s, k), k, s.sockets[k].pending.value.origin);
  }

  /** The first audio of a turn silences the socket's response; the turn waits in the handler. */
  lemma TurnTimers(running: bool, sockets: seq<Socket>, tasks: seq<Task>, k: nat, o: nat, now: int)
    requires TimersLive(running, sockets, tasks) && ResponsesLive(sockets, tasks)
    requires k < |sockets| && sockets[k].pending.None?
    ensures TimersLive(running, sockets[k := sockets[k].(lastAudio := now, handler := StartingTurn(o))],
                       AbortIn(tasks, sockets[k].controller))
  {
    ControllerAborts(sockets, tasks, k);
    hide AbortIn, ResponsesLive;
  }

  lemma TurnResponses(sockets: seq<Socket>, tasks: seq<Task>, k: nat, o: nat, now: int)
    requires ResponsesLive(sockets, tasks) && k < |sockets|
    ensures ResponsesLive(sockets[k := sockets[k].(lastAudio := now, handler := StartingTurn(o))],
                          AbortIn(tasks, sockets[k].controller))
  {
    ControllerAborts(sockets, tasks, k);
    hide AbortIn;
  }

  lemma TurnLate(running: bool, now: int, sockets: seq<Socket>, tasks: seq<Task>, origins: seq<Origin>,
                 k: nat, o: nat, added: Origin)
    requires TimersLate(now, sockets, tasks, origins) && TimersLive(running, sockets, tasks)
    requires ResponsesLive(sockets, tasks) && k < |sockets| && sockets[k].pending.None?
    ensures TimersLate(now, sockets[k := sockets[k].(lastAudio := now, handler := StartingTurn(o))],
                       AbortIn(tasks, sockets[k].controller), origins + [added])
  {
    ControllerAborts(sockets, tasks, k);
    hide AbortIn, SilenceMs, ResponsesLive;
  }

  lemma StartTurnLive(s: State, k: nat)
    requires Formed(s) && Live(s) && k < |s.sockets| && s.sockets[k].pending.None? && s.calls[k] in s.scenarios
    ensures Live(StartTurn(s, k))
  {
    hide Formed, NewOrigin, ResolveTool, AbortIn, TimersLive, ResponsesLive, TimersLate;
    var r, o := StartTurn(s, k), |s.origins|;
    TurnTimers(s.running, s.sockets, s.tasks, k, o, s.now);
    TurnResponses(s.sockets, s.tasks, k, o, s.now);
    TurnLate(s.running, s.now, s.sockets, s.tasks, s.origins, k, o, r.origins[o]);
  }

  /** A new response for socket `k`: its controller is aborted and replaced. */
  function Installed(tasks: seq<Task>, socket: Socket, k: nat, body: Body): seq<Task> {
    AbortIn(tasks, socket.controller) + [Task(k, false, body)]
  }

  lemma InstallTimers(running: bool, sockets: seq<Socket>, tasks: seq<Task>, k: nat, socket: Socket, body: Body)
    requires TimersLive(running, sockets, tasks) && ResponsesLive(sockets, tasks) && k < |sockets| && IsStage(body)
    requires socket.pending == sockets[k].pending && socket.open == sockets[k].open
    requires !socket.handler.StartingTurn?
    ensures TimersLive(running, sockets[k := socket], Installed(tasks, sockets[k], k, body))
  {
    ControllerAborts(sockets, tasks, k);
    hide AbortIn, ResponsesLive;
  }

  lemma InstallResponses(sockets: seq<Socket>, tasks: seq<Task>, k: nat, socket: Socket, body: Body)
    requires ResponsesLive(sockets, tasks) && k < |sockets| && IsStage(body) && socket.controller == Some(|tasks|)
    ensures ResponsesLive(sockets[k := socket], Installed(tasks, sockets[k], k, body))
  {
    ControllerAborts(sockets, tasks, k);
    hide AbortIn;
  }

  lemma InstallLate(now: int, sockets: seq<Socket>, tasks: seq<Task>, origins: seq<Origin>,
                    k: nat, socket: Socket, body: Body, after: seq<Origin>)
    requires TimersLate(now, sockets, tasks, origins) && k < |sockets| && IsStage(body)
    requires socket.lastAudio == sockets[k].lastAudio
    requires |after| == |origins| && forall o :: 0 <= o < |origins| ==> after[o].scenario == origins[o].scenario
    ensures TimersLate(now, sockets[k := socket], Installed(tasks, sockets[k], k, body), after)
  {
    assert forall t :: 0 <= t < |tasks| ==>
      AbortIn(tasks, sockets[k].controller)[t] in [tasks[t], tasks[t].(aborted := true)];
    hide AbortIn, SilenceMs;
  }

  lemma GreetLive(s: State, k: nat, o: nat)
    requires Formed(s) && Live(s) && k < |s.sockets| && OriginAt(s.homes, k, o)
    ensures Live(Greet(s, k, o))
  {
    assert o < |s.origins|;
    var r, body := Greet(s, k, o), ResponseStage(o, ResponseEvents(s.origins[o].events));
    assert r.sockets == s.sockets[k := r.sockets[k]] && r.tasks == Installed(s.tasks, s.sockets[k], k, body);
    assert forall i :: 0 <= i < |s.origins| ==> r.origins[i].scenario == s.origins[i].scenario;
    hide Formed, ResponseEvents, AbortIn, Installed, TimersLive, ResponsesLive, TimersLate;
    InstallTimers(s.running, s.sockets, s.tasks, k, r.sockets[k], body);
    InstallResponses(s.sockets, s.tasks, k, r.sockets[k], body);
    InstallLate(s.now, s.sockets, s.tasks, s.origins, k, r.sockets[k], body, r.origins);
  }

  /** Tasks of socket `k` alone may abort. */
  ghost predicate AbortedAt(before: seq<Task>, after: seq<Task>, k: nat) {
    && |after| == |before|
    && forall t :: 0 <= t < |before| ==>
         after[t] == before[t] || (before[t].socket == k && after[t] == before[t].(aborted := true))
  }

  lemma OwnAborts(s: State, k: nat)
    requires Live(s) && k < |s.sockets|
    ensures var socket := s.sockets[k]; var r := AbortIn(AbortIn(s.tasks, socket.controller), PendingTimer(socket));
      AbortedAt(s.tasks, r, k)
      && (forall t :: 0 <= t < |s.tasks| && LiveResponse(s.tasks[t]) && s.tasks[t].socket == k ==> r[t].aborted)
      && (forall t :: 0 <= t < |s.tasks| && LiveTimer(s.tasks[t]) && s.tasks[t].socket == k ==> r[t].aborted)
  {
    hide TimersLate;
  }

  lemma CloseTimers(running: bool, sockets: seq<Socket>, tasks: seq<Task>, k: nat, after: seq<Task>)
    requires TimersLive(running, sockets, tasks) && k < |sockets| && AbortedAt(tasks, after, k)
    ensures TimersLive(running, sockets[k := sockets[k].(open := false, writable := false)], after)
  {
  }

  lemma CloseResponses(sockets: seq<Socket>, tasks: seq<Task>, k: nat, after: seq<Task>)
    requires ResponsesLive(sockets, tasks) && k < |sockets| && AbortedAt(tasks, after, k)
    ensures ResponsesLive(sockets[k := sockets[k].(open := false, writable := false)], after)
  {
  }

  lemma CloseLate(now: int, sockets: seq<Socket>, tasks: seq<Task>, origins: seq<Origin>, k: nat, after: seq<Task>)
    requires TimersLate(now, sockets, tasks, origins) && k < |sockets| && AbortedAt(tasks, after, k)
    ensures TimersLate(now, sockets[k := sockets[k].(open := false, writable := false)], after, origins)
  {
    hide SilenceMs;
  }

  lemma CloseLive(s: State, k: nat)
    requires Formed(s) && Live(s) && k < |s.sockets|
    ensures Live(OnClose(s, k))
  {
    OwnAborts(s, k);
    var after := OnClose(s, k).tasks;
    hide Formed, TimersLive, ResponsesLive, TimersLate, AbortedAt, AbortIn;
    CloseTimers(s.running, s.sockets, s.tasks, k, after);
    CloseResponses(s.sockets, s.tasks, k, after);
    CloseLate(s.now, s.sockets, s.tasks, s.origins, k, after);
  }

  /** Stopping aborts some tasks, and closes some sockets for writing. */
  ghost predicate Stopped(before: State, after: State) {
    && !after.running && after.now == before.now && after.origins == before.origins
    && |after.sockets| == |before.sockets| && |after.tasks| == |before.tasks|
    && (forall k :: 0 <= k < |before.sockets| ==>
          after.sockets[k] == before.sockets[k].(writable := after.sockets[k].writable))
    && (forall t :: 0 <= t < |before.tasks| ==>
          after.tasks[t] == before.tasks[t].(aborted := before.tasks[t].aborted || after.tasks[t].aborted))
  }

  lemma StoppedTimers(s: State, r: State)
    requires TimersLive(s.running, s.sockets, s.tasks) && Stopped(s, r)
    ensures TimersLive(r.running, r.sockets, r.tasks)
  {
  }

  lemma StoppedResponses(s: State, r: State)
    requires ResponsesLive(s.sockets, s.tasks) && Stopped(s, r)
    ensures ResponsesLive(r.sockets, r.tasks)
  {
  }

  lemma StoppedLate(s: State, r: State)
    requires TimersLate(s.now, s.sockets, s.tasks, s.origins) && Stopped(s, r)
    ensures TimersLate(r.now, r.sockets, r.tasks, r.origins)
  {
    hide SilenceMs;
  }

  lemma StopLive(s: State)
    requires Formed(s) && Live(s)
    ensures Live(OnStop(s))
  {
    var r := OnStop(s);
    assert Stopped(s, r) by { hide Live; }
    hide Formed, OnStop, Stopped, TimersLive, ResponsesLive, TimersLate;
    StoppedTimers(s, r);
    StoppedResponses(s, r);
    StoppedLate(s, r);
  }

  /** A task that has ended settles, and its socket's controller goes if it was the task's own. */
  lemma ReleaseTimers(running: bool, sockets: seq<Socket>, tasks: seq<Task>, t: nat, k: nat)
    requires TimersLive(running, sockets, tasks) && t < |tasks| && tasks[t].body.Ended? && k < |sockets|
    ensures var after := tasks[t := tasks[t].(body := Settled)];
      && TimersLive(running, sockets, after)
      && TimersLive(running, sockets[k := sockets[k].(controller := None)], after)
  {
  }

  lemma ReleaseResponses(sockets: seq<Socket>, tasks: seq<Task>, t: nat, k: nat)
    requires ResponsesLive(sockets, tasks) && t < |tasks| && tasks[t].body.Ended? && k < |sockets|
    ensures var after := tasks[t := tasks[t].(body := Settled)];
      && (sockets[k].controller == Some(t) ==> ResponsesLive(sockets[k := sockets[k].(controller := None)], after))
      && (tasks[t].socket == k && sockets[k].controller != Some(t) ==> ResponsesLive(sockets, after))
  {
  }

  lemma ReleaseLate(now: int, sockets: seq<Socket>, tasks: seq<Task>, origins: seq<Origin>, t: nat, k: nat)
    requires TimersLate(now, sockets, tasks, origins) && t < |tasks| && k < |sockets|
    ensures var after := tasks[t := tasks[t].(body := Settled)];
      && TimersLate(now, sockets, after, origins)
      && TimersLate(now, sockets[k := sockets[k].(controller := None)], after, origins)
  {
    hide SilenceMs;
  }

  lemma FinallyLive(s: State, t: nat)
    requires Formed(s) && Live(s) && t < |s.tasks| && s.tasks[t].body.Ended?
    ensures Live(OnFinally(s, t))
  {
    var k := s.tasks[t].socket;
    assert k < |s.sockets|;
    hide Formed, SilenceMs, TimersLive, ResponsesLive, TimersLate;
    ReleaseTimers(s.running, s.sockets, s.tasks, t, k);
    ReleaseResponses(s.sockets, s.tasks, t, k);
    ReleaseLate(s.now, s.sockets, s.tasks, s.origins, t, k);
  }

  /** The pending turn's timer has done its work. */
  lemma SettleTimers(running: bool, sockets: seq<Socket>, tasks: seq<Task>, t: nat)
    requires TimersLive(running, sockets, tasks) && t < |tasks| && LiveTimer(tasks[t])
    ensures var k := tasks[t].socket;
      k < |sockets| && TimersLive(running, sockets[k := sockets[k].(pending := None)], tasks[t := tasks[t].(body := Settled)])
  {
  }

  lemma SettleResponses(sockets: seq<Socket>, tasks: seq<Task>, t: nat)
    requires ResponsesLive(sockets, tasks) && t < |tasks| && tasks[t].body.Timer? && tasks[t].socket < |sockets|
    ensures var k := tasks[t].socket;
      ResponsesLive(sockets[k := sockets[k].(pending := None)], tasks[t := tasks[t].(body := Settled)])
  {
  }

  lemma SettleLate(now: int, sockets: seq<Socket>, tasks: seq<Task>, origins: seq<Origin>, t: nat)
    requires TimersLate(now, sockets, tasks, origins) && t < |tasks| && tasks[t].socket < |sockets|
    ensures var k := tasks[t].socket;
      TimersLate(now, sockets[k := sockets[k].(pending := None)], tasks[t := tasks[t].(body := Settled)], origins)
  {
    hide SilenceMs;
  }

  lemma CompleteTurnLive(s: State, t: nat)
    requires Formed(s) && Live(s) && t < |s.tasks| && LiveTimer(s.tasks[t])
    ensures Live(CompleteTurn(s, t))
  {
    var k, o := s.tasks[t].socket, s.tasks[t].body.origin;
    var r, body := CompleteTurn(s, t), CallerStage(o, WithoutSpeechStarted(CallerEvents(s.origins[o].events)));
    var sockets, tasks := s.sockets[k := s.sockets[k].(pending := None)], s.tasks[t := s.tasks[t].(body := Settled)];
    SettleTimers(s.running, s.sockets, s.tasks, t);
    SettleResponses(s.sockets, s.tasks, t);
    SettleLate(s.now, s.sockets, s.tasks, s.origins, t);
    assert !s.sockets[k].handler.StartingTurn?;
    assert r.sockets == sockets[k := r.sockets[k]] && r.tasks == Installed(tasks, sockets[k], k, body);
    assert forall i :: 0 <= i < |s.origins| ==> r.origins[i].scenario == s.origins[i].scenario;
    hide Formed, CallerEvents, WithoutSpeechStarted, AbortIn, Installed, TimersLive, ResponsesLive, TimersLate;
    InstallTimers(s.running, sockets, tasks, k, r.sockets[k], body);
    InstallResponses(sockets, tasks, k, r.sockets[k], body);
    InstallLate(s.now, sockets, tasks, s.origins, k, r.sockets[k], body, r.origins);
  }

  lemma TimerLive(s: State, t: nat)
    requires Formed(s) && Live(s) && t < |s.tasks| && s.tasks[t].body.Timer?
    ensures Live(OnTimer(s, t))
  {
    if LiveTimer(s.tasks[t]) {
      CompleteTurnLive(s, t);
    }
    hide Formed, SilenceMs, CompleteTurn;
  }

  /** A pending turn and its first timer are made together. */
  lemma PendTimers(running: bool, sockets: seq<Socket>, tasks: seq<Task>, k: nat, o: nat, due: int)
    requires TimersLive(running, sockets, tasks) && k < |sockets| && sockets[k].pending.None?
    ensures TimersLive(running, sockets[k := sockets[k].(handler := Free, pending := Some(Pending(o, |tasks|)))],
                       tasks + [Task(k, false, Timer(o, due))])
  {
  }

  lemma PendResponses(sockets: seq<Socket>, tasks: seq<Task>, k: nat, o: nat, due: int)
    requires ResponsesLive(sockets, tasks) && k < |sockets|
    ensures ResponsesLive(sockets[k := sockets[k].(handler := Free, pending := Some(Pending(o, |tasks|)))],
                          tasks + [Task(k, false, Timer(o, due))])
  {
  }

  lemma PendLate(now: int, sockets: seq<Socket>, tasks: seq<Task>, origins: seq<Origin>, after: seq<Origin>,
                 k: nat, o: nat)
    requires TimersLate(now, sockets, tasks, origins) && k < |sockets| && o < |origins|
    requires |after| == |origins| && forall i :: 0 <= i < |origins| ==> after[i].scenario == origins[i].scenario
    ensures TimersLate(now, sockets[k := sockets[k].(handler := Free, pending := Some(Pending(o, |tasks|)))],
                       tasks + [Task(k, false, Timer(o, now + SilenceMs(origins[o].scenario)))], after)
  {
    hide SilenceMs;
  }

  lemma BeginTurnPends(s: State, k: nat, o: nat)
    requires Formed(s) && k < |s.sockets| && OriginAt(s.homes, k, o)
    ensures var r := BeginTurn(s, k, o); var due := s.now + SilenceMs(s.origins[o].scenario);
      && r.running == s.running && r.now == s.now && r.tasks == s.tasks + [Task(k, false, Timer(o, due))]
      && r.sockets == s.sockets[k := s.sockets[k].(handler := Free, pending := Some(Pending(o, |s.tasks|)))]
      && |r.origins| == |s.origins| && forall i :: 0 <= i < |s.origins| ==> r.origins[i].scenario == s.origins[i].scenario
  {
    AnnounceShape(s, o);
    hide AnnounceSpeech, SilenceMs;
  }

  lemma PendLive(s: State, r: State, k: nat, o: nat)
    requires Live(s) && k < |s.sockets| && s.sockets[k].pending.None? && o < |s.origins|
    requires r.running == s.running && r.now == s.now
    requires r.tasks == s.tasks + [Task(k, false, Timer(o, s.now + SilenceMs(s.origins[o].scenario)))]
    requires r.sockets == s.sockets[k := s.sockets[k].(handler := Free, pending := Some(Pending(o, |s.tasks|)))]
    requires |r.origins| == |s.origins|
    requires forall i :: 0 <= i < |s.origins| ==> r.origins[i].scenario == s.origins[i].scenario
    ensures Live(r)
  {
    var due := s.now + SilenceMs(s.origins[o].scenario);
    hide SilenceMs, TimersLive, ResponsesLive, TimersLate;
    PendTimers(s.running, s.sockets, s.tasks, k, o, due);
    PendResponses(s.sockets, s.tasks, k, o, due);
    PendLate(s.now, s.sockets, s.tasks, s.origins, r.origins, k, o);
  }

  lemma BeginTurnLive(s: State, k: nat, o: nat)
    requires Formed(s) && Live(s) && k < |s.sockets| && s.sockets[k].handler == StartingTurn(o)
    ensures Live(BeginTurn(s, k, o))
  {
    assert SocketAt(s.homes, |s.tasks|, k, s.sockets[k]) && o < |s.origins|;
    assert s.sockets[k].pending.None?;
    hide Formed, SilenceMs, BeginTurn, Live;
    BeginTurnPends(s, k, o);
    PendLive(s, BeginTurn(s, k, o), k, o);
  }

  /** A response task moves on or ends; its socket may stop being writable. */
  lemma StageMoves(s: State, r: State, t: nat, body: Body)
    requires Live(s) && t < |s.tasks| && IsStage(s.tasks[t].body) && (IsStage(body) || body.Ended?)
    requires r.tasks == s.tasks[t := s.tasks[t].(body := body)] && r.running == s.running && r.now == s.now
    requires |r.sockets| == |s.sockets| && forall k :: 0 <= k < |s.sockets| ==>
      r.sockets[k] == s.sockets[k].(writable := r.sockets[k].writable)
    requires |r.origins| == |s.origins| && forall o :: 0 <= o < |s.origins| ==>
      r.origins[o].scenario == s.origins[o].scenario
    ensures Live(r)
  {
    hide SilenceMs;
    assert TimersLive(r.running, r.sockets, r.tasks) by { hide ResponsesLive, TimersLate; }
    assert ResponsesLive(r.sockets, r.tasks) by { hide TimersLive, TimersLate; }
    assert TimersLate(r.now, r.sockets, r.tasks, r.origins) by { hide TimersLive, ResponsesLive; }
    hide TimersLive, ResponsesLive, TimersLate;
  }

  lemma StageLive(s: State, t: nat)
    requires Formed(s) && Live(s) && t < |s.tasks| && IsStage(s.tasks[t].body)
    ensures Live(Step(s, TaskResumes(t)))
  {
    TaskShape(s, t);
    var r := Step(s, TaskResumes(t));
    hide Formed, Live, Step;
    StageMoves(s, r, t, r.tasks[t].body);
  }

  /** A socket changes in nothing that concerns its timer or response, and an origin may be added. */
  lemma SocketMoves(s: State, k: nat, socket: Socket, added: seq<Origin>)
    requires Live(s) && k < |s.sockets| && !socket.handler.StartingTurn?
    requires socket.pending == s.sockets[k].pending && socket.controller == s.sockets[k].controller
      && socket.open == s.sockets[k].open && socket.lastAudio == s.sockets[k].lastAudio
    ensures var sockets := s.sockets[k := socket];
      && TimersLive(s.running, sockets, s.tasks) && ResponsesLive(sockets, s.tasks)
      && TimersLate(s.now, sockets, s.tasks, s.origins + added)
  {
    hide SilenceMs;
  }

  lemma MessageLive(s: State, k: nat, m: Message)
    requires Formed(s) && Live(s) && Enabled(s, Deliver(k, m))
    ensures Live(OnMessage(s, k, m))
  {
    hide TimersLive, ResponsesLive, TimersLate, NewOrigin;
    assert s.origins + [] == s.origins;
    if m.Malformed? || s.calls[k] !in s.scenarios {
      SocketMoves(s, k, s.sockets[k].(writable := false), []);
    } else {
      match m
      case SessionUpdate(tools) => SocketMoves(s, k, s.sockets[k].(tools := tools, handler := Updating), []);
      case ResponseCreate =>
        SocketMoves(s, k, s.sockets[k].(handler := Greeting(|s.origins|)),
                    [NewOrigin(s, s.calls[k], true, 0, s.scenarios[s.calls[k]].(mode := Normal))]);
      case AppendAudio =>
        hide RestartTimer, StartTurn, Live;
        if s.sockets[k].pending.Some? {
          RestartLive(s, k);
        } else {
          StartTurnLive(s, k);
        }
      case _ =>
    }
  }

  lemma HandlerLive(s: State, k: nat)
    requires Formed(s) && Live(s) && k < |s.sockets|
    ensures Live(OnHandler(s, k))
  {
    assert SocketAt(s.homes, |s.tasks|, k, s.sockets[k]);
    assert s.origins + [] == s.origins;
    SocketMoves(s, k, s.sockets[k].(handler := Free), []);
    hide TimersLive, ResponsesLive, TimersLate;
    assert Live(s.(sockets := s.sockets[k := s.sockets[k].(handler := Free)]));
    hide Formed, Greet, BeginTurn, Live;
    match s.sockets[k].handler
    case Greeting(o) => GreetLive(s, k, o);
    case StartingTurn(o) => BeginTurnLive(s, k, o);
    case _ =>
  }

  lemma UntrackedLive(s: State, t: nat)
    requires Formed(s) && Live(s) && t < |s.tasks| && s.tasks[t].body.Settled?
    ensures Live(OnUntracked(s, t))
  {
    hide Formed, SilenceMs;
  }

  lemma ConnectLive(s: State, c: string, authorised: bool)
    requires Live(s)
    ensures Live(OnConnect(s, c, authorised))
  {
    hide SilenceMs;
  }

  lemma CloseSocketLive(s: State, k: nat)
    requires Live(s) && k < |s.sockets|
    ensures Live(CloseSocket(s, k))
  {
    hide SilenceMs;
  }

  lemma WaitLive(s: State, d: nat)
    requires Live(s)
    ensures Live(s.(now := s.now + d))
  {
    hide SilenceMs, TimersLive, ResponsesLive;
  }

  lemma StepLive(s: State, e: Event)
    requires Formed(s) && Live(s) && Enabled(s, e)
    ensures Live(Step(s, e))
  {
    hide OnMessage, OnHandler, OnClose, OnConnect, OnStop, OnFinally, OnTimer, OnUntracked, Formed, CloseSocket;
    hide TimersLive, ResponsesLive, TimersLate;
    match e
    case PeerCloses(k) => CloseSocketLive(s, k);
    case TimePasses(d) => WaitLive(s, d);
    case Connect(c, authorised) => ConnectLive(s, c, authorised);
    case CloseFires(k) => CloseLive(s, k);
    case Deliver(k, m) => MessageLive(s, k, m);
    case ResumeHandler(k) => HandlerLive(s, k);
    case TimerWakes(t) => TimerLive(s, t);
    case TaskResumes(t) => StageLive(s, t);
    case FinallyRuns(t) => FinallyLive(s, t);
    case TaskUntracked(t) => UntrackedLive(s, t);
    case StopServer => StopLive(s);
    case _ =>
  }

  lemma {:induction false} RunLive(events: seq<Event>)
    requires Run(events).Some?
    ensures Live(Run(events).value)
  {
    if events != [] {
      RunLive(events[..|events| - 1]);
      StepLive(Run(events[..|events| - 1]).value, events[|events| - 1]);
    }
  }

  // ---------------------------------------------------------------- theorems

  predicate LiveTimerOn(s: State, t: int, k: nat) {
    0 <= t < |s.tasks| && LiveTimer(s.tasks[t]) && s.tasks[t].socket == k
  }

  predicate LiveResponseOn(s: State, t: int, k: nat) {
    0 <= t < |s.tasks| && LiveResponse(s.tasks[t]) && s.tasks[t].socket == k
  }

  /** In every run a socket has at most one live timer, and while it is open and the server runs it has one exactly
    when it has a pending turn - so a live timer never finds another turn pending. */
  lemma OneLiveTimer(events: seq<Event>, k: nat)
    requires Run(events).Some? && k < |Run(events).value.sockets|
    ensures var s := Run(events).value;
      && (forall t, u :: LiveTimerOn(s, t, k) && LiveTimerOn(s, u, k) ==> t == u)
      && (forall t :: LiveTimerOn(s, t, k) ==> s.sockets[k].pending == Some(Pending(s.tasks[t].body.origin, t)))
      && (s.sockets[k].open && s.running ==> (s.sockets[k].pending.Some? <==> exists t :: LiveTimerOn(s, t, k)))
  {
    RunLive(events);
    var s := Run(events).value;
    if s.sockets[k].open && s.running && s.sockets[k].pending.Some? {
      assert LiveTimerOn(s, s.sockets[k].pending.value.timer, k);
    }
  }

  /** In every run a socket has at most one live response, and it is the one the socket's controller aborts: the
    `finally` of an older task never takes the controller of a newer one away. */
  lemma OneLiveResponse(events: seq<Event>, k: nat)
    requires Run(events).Some? && k < |Run(events).value.sockets|
    ensures var s := Run(events).value;
      && (forall t, u :: LiveResponseOn(s, t, k) && LiveResponseOn(s, u, k) ==> t == u)
      && (forall t :: LiveResponseOn(s, t, k) ==> s.sockets[k].controller == Some(t))
  {
    RunLive(events);
  }

  /** Whatever step gives a turn its response, it is a timer's, and for the turn's whole silence no audio was
    processed on that socket. */
  lemma ResponseOnlyAfterSilence(events: seq<Event>, e: Event)
    requires Run(events).Some? && Enabled(Run(events).value, e)
    ensures var s := Run(events).value; var r := Step(s, e);
      |r.tasks| > |s.tasks| && r.tasks[|s.tasks|].body.CallerStage? ==>
        var task := r.tasks[|s.tasks|];
        && e.TimerWakes? && task.socket < |s.sockets| && task.body.origin < |s.origins|
        && s.now - s.sockets[task.socket].lastAudio >= SilenceMs(s.origins[task.body.origin].scenario)
  {
    RunLive(events);
    var s := Run(events).value;
    hide Run;
    StepKeepsSilence(s, e);
  }

  lemma StepKeepsSilence(s: State, e: Event)
    requires Formed(s) && Live(s) && Enabled(s, e)
    ensures var r := Step(s, e);
      |r.tasks| > |s.tasks| && r.tasks[|s.tasks|].body.CallerStage? ==>
        var task := r.tasks[|s.tasks|];
        && e.TimerWakes? && task.socket < |s.sockets| && task.body.origin < |s.origins|
        && s.now - s.sockets[task.socket].lastAudio >= SilenceMs(s.origins[task.body.origin].scenario)
  {
    hide SilenceMs, Live, OnTimer, OnMessage, OnHandler;
    match e
    case TimerWakes(t) =>
      if |OnTimer(s, t).tasks| > |s.tasks| {
        TimerKeepsSilence(s, t);
      }
      hide Formed;
    case Deliver(k, m) => MessageGivesNoTurnResponse(s, k, m);
    case ResumeHandler(k) => HandlerGivesNoTurnResponse(s, k);
    case TaskResumes(t) =>
      TaskShape(s, t);
      hide Step;
    case _ => hide Formed;
  }

  lemma TimerKeepsSilence(s: State, t: nat)
    requires Formed(s) && Live(s) && Enabled(s, TimerWakes(t)) && |OnTimer(s, t).tasks| > |s.tasks|
    ensures var task := OnTimer(s, t).tasks[|s.tasks|];
      && task.socket < |s.sockets| && task.body.CallerStage? && task.body.origin < |s.origins|
      && s.now - s.sockets[task.socket].lastAudio >= SilenceMs(s.origins[task.body.origin].scenario)
  {
    var task := s.tasks[t];
    TimerCompletes(s, t);
    TimerIsLate(s, t);
    hide SilenceMs, Live, Formed, OnTimer;
  }

  lemma CompletionAdds(s: State, t: nat)
    requires Formed(s) && t < |s.tasks| && s.tasks[t].body.Timer?
    requires s.tasks[t].socket < |s.sockets| && s.tasks[t].body.origin < |s.origins|
    ensures |CompleteTurn(s, t).tasks| == |s.tasks| + 1
    ensures var task := CompleteTurn(s, t).tasks[|s.tasks|];
      task.socket == s.tasks[t].socket && task.body.CallerStage? && task.body.origin == s.tasks[t].body.origin
  {
    hide CallerEvents, WithoutSpeechStarted, Formed, AbortIn;
  }

  lemma TimerCompletes(s: State, t: nat)
    requires Formed(s) && t < |s.tasks| && s.tasks[t].body.Timer? && |OnTimer(s, t).tasks| > |s.tasks|
    ensures !s.tasks[t].aborted
    ensures var task := OnTimer(s, t).tasks[|s.tasks|];
      task.socket == s.tasks[t].socket && task.body.CallerStage? && task.body.origin == s.tasks[t].body.origin
  {
    assert s.tasks[t].socket < |s.sockets| && BodyAt(s.homes, s.tasks[t].socket, s.tasks[t].body);
    CompletionAdds(s, t);
    hide CompleteTurn, Formed;
  }

  lemma TimerIsLate(s: State, t: nat)
    requires Formed(s) && Live(s) && t < |s.tasks| && LiveTimer(s.tasks[t])
    ensures s.tasks[t].socket < |s.sockets| && s.tasks[t].body.origin < |s.origins|
    ensures s.tasks[t].body.due >=
      s.sockets[s.tasks[t].socket].lastAudio + SilenceMs(s.origins[s.tasks[t].body.origin].scenario)
  {
    hide SilenceMs, TimersLive, ResponsesLive, Formed;
  }

  lemma StartGivesNoTask(s: State, k: nat)
    requires Formed(s) && k < |s.sockets| && s.calls[k] in s.scenarios
    ensures |StartTurn(s, k).tasks| == |s.tasks| == |StartGreeting(s, k).tasks|
  {
    hide NewOrigin, ResolveTool;
  }

  lemma MessageGivesNoTurnResponse(s: State, k: nat, m: Message)
    requires Formed(s) && k < |s.sockets|
    ensures |OnMessage(s, k, m).tasks| > |s.tasks| ==> !OnMessage(s, k, m).tasks[|s.tasks|].body.CallerStage?
  {
    hide RestartTimer, StartTurn, StartGreeting, SilenceMs, AbortIn;
    if s.calls[k] in s.scenarios {
      StartGivesNoTask(s, k);
    }
    if s.sockets[k].pending.Some? {
      RestartRenews(s, k);
    }
    hide Formed;
  }

  lemma GreetingAdds(s: State, k: nat, o: nat)
    requires Formed(s) && k < |s.sockets| && OriginAt(s.homes, k, o)
    ensures var r := Greet(s, k, o); |r.tasks| == |s.tasks| + 1 && r.tasks[|s.tasks|].body.ResponseStage?
  {
    hide ResponseEvents;
  }

  lemma HandlerGivesNoTurnResponse(s: State, k: nat)
    requires Formed(s) && k < |s.sockets|
    ensures |OnHandler(s, k).tasks| > |s.tasks| ==> !OnHandler(s, k).tasks[|s.tasks|].body.CallerStage?
  {
    var handler, r := s.sockets[k].handler, OnHandler(s, k);
    assert SocketAt(s.homes, |s.tasks|, k, s.sockets[k]);
    hide Greet, BeginTurn, SilenceMs, Formed;
    if handler.StartingTurn? {
      assert r == BeginTurn(s, k, handler.origin);
      hide OnHandler;
      BeginTurnPends(s, k, handler.origin);
      assert r.tasks[|s.tasks|].body.Timer?;
    } else if handler.Greeting? {
      assert r == Greet(s, k, handler.origin);
      hide OnHandler;
      GreetingAdds(s, k, handler.origin);
    } else {
      assert r.tasks == s.tasks;
      hide OnHandler;
    }
  }
}
