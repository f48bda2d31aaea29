/** Call accounting: the connection count is the number of open sockets, the active tasks are those not yet untracked, and
  a call is released only when it has neither. */
module RealtimeAccounts {
  import opened Options
  import opened Scripts
  import opened RealtimeModel
  import opened RealtimeForm
  import opened RealtimeTurns

  function OpenSockets(calls: seq<string>, sockets: seq<Socket>, c: string): nat
    requires |calls| == |sockets|
  {
    if sockets == [] then 0
    else
      var n := |sockets| - 1;
      OpenSockets(calls[..n], sockets[..n], c) + if sockets[n].open && calls[n] == c then 1 else 0
  }

  lemma {:induction false} SocketChanges(calls: seq<string>, sockets: seq<Socket>, k: nat, socket: Socket, c: string)
    requires |calls| == |sockets| && k < |sockets|
    ensures OpenSockets(calls, sockets[k := socket], c)
         == OpenSockets(calls, sockets, c) - (if sockets[k].open && calls[k] == c then 1 else 0)
            + (if socket.open && calls[k] == c then 1 else 0)
  {
    var n := |sockets| - 1;
    if k < n {
      SocketChanges(calls[..n], sockets[..n], k, socket, c);
      assert sockets[k := socket][..n] == sockets[..n][k := socket];
    } else {
      assert sockets[k := socket][..n] == sockets[..n];
    }
  }

  lemma SocketJoins(calls: seq<string>, sockets: seq<Socket>, call: string, socket: Socket, c: string)
    requires |calls| == |sockets|
    ensures OpenSockets(calls + [call], sockets + [socket], c)
         == OpenSockets(calls, sockets, c) + if socket.open && call == c then 1 else 0
  {
  }

  lemma {:induction false} SocketsKeepOpen(calls: seq<string>, before: seq<Socket>, after: seq<Socket>, c: string)
    requires |calls| == |before| == |after| && forall k :: 0 <= k < |before| ==> after[k].open == before[k].open
    ensures OpenSockets(calls, after, c) == OpenSockets(calls, before, c)
  {
    if before != [] {
      var n := |before| - 1;
      SocketsKeepOpen(calls[..n], before[..n], after[..n], c);
    }
  }

  lemma {:induction false} OpenSocketCounts(calls: seq<string>, sockets: seq<Socket>, k: nat)
    requires |calls| == |sockets| && k < |sockets| && sockets[k].open
    ensures OpenSockets(calls, sockets, calls[k]) >= 1
  {
    if k < |sockets| - 1 {
      OpenSocketCounts(calls[..|sockets| - 1], sockets[..|sockets| - 1], k);
    }
  }

  lemma {:induction false} NoOpenSocket(calls: seq<string>, sockets: seq<Socket>, c: string)
    requires |calls| == |sockets| && forall k :: 0 <= k < |sockets| && calls[k] == c ==> !sockets[k].open
    ensures OpenSockets(calls, sockets, c) == 0
  {
    if sockets != [] {
      NoOpenSocket(calls[..|sockets| - 1], sockets[..|sockets| - 1], c);
    }
  }

  // ---------------------------------------------------------------- the invariant

  ghost predicate CountsOpen(s: State) {
    && |s.calls| == |s.sockets|
    && (forall c :: Count(s.counts, c) == OpenSockets(s.calls, s.sockets, c))
    && (forall k :: 0 <= k < |s.sockets| && s.sockets[k].open ==> s.calls[k] in s.scenarios)
  }

  /** A task of the call that still has to leave the active tasks. */
  predicate IsTracked(calls: seq<string>, tasks: seq<Task>, t: int, c: string) {
    && 0 <= t < |tasks| && !tasks[t].body.Untracked? && tasks[t].socket < |calls| && calls[tasks[t].socket] == c
  }

  ghost predicate TracksTasks(s: State) {
    forall c, t: nat :: t in ActiveTasks(s, c) <==> IsTracked(s.calls, s.tasks, t, c)
  }

  // ---------------------------------------------------------------- connections

  /** No socket opens or closes, and no table of the call shrinks. */
  ghost predicate KeepsSockets(s: State, r: State) {
    && r.calls == s.calls && r.counts == s.counts && |r.sockets| == |s.sockets|
    && s.scenarios.Keys <= r.scenarios.Keys
    && forall k :: 0 <= k < |s.sockets| ==> r.sockets[k].open == s.sockets[k].open
  }

  lemma KeepsCounts(s: State, r: State)
    requires CountsOpen(s) && KeepsSockets(s, r)
    ensures CountsOpen(r)
  {
    forall c ensures Count(r.counts, c) == OpenSockets(r.calls, r.sockets, c) {
      SocketsKeepOpen(s.calls, s.sockets, r.sockets, c);
    }
  }

  lemma ConnectCounts(s: State, c: string, authorised: bool)
    requires CountsOpen(s)
    ensures CountsOpen(OnConnect(s, c, authorised))
  {
    forall d ensures authorised && c in s.scenarios ==>
      OpenSockets(s.calls + [c], s.sockets + [Socket(true, true, [], Free, None, None, s.now)], d)
      == OpenSockets(s.calls, s.sockets, d) + if c == d then 1 else 0
    {
      SocketJoins(s.calls, s.sockets, c, Socket(true, true, [], Free, None, None, s.now), d);
    }
    hide OpenSockets;
  }

  lemma CloseCounts(s: State, k: nat)
    requires Formed(s) && CountsOpen(s) && k < |s.sockets| && s.sockets[k].open
    ensures CountsOpen(OnClose(s, k)) && Count(s.counts, s.calls[k]) >= 1
  {
    OpenSocketCounts(s.calls, s.sockets, k);
    var r := OnClose(s, k);
    assert r.sockets == s.sockets[k := r.sockets[k]] && !r.sockets[k].open && r.calls == s.calls;
    forall c ensures Count(r.counts, c) == OpenSockets(r.calls, r.sockets, c) {
      SocketChanges(s.calls, s.sockets, k, r.sockets[k], c);
    }
    hide OpenSockets, Formed;
  }

  lemma ReleaseCounts(s: State, c: string)
    requires CountsOpen(s)
    ensures CountsOpen(OnRelease(s, c))
  {
    if Count(s.counts, c) == 0 {
      forall k | 0 <= k < |s.sockets| && s.sockets[k].open ensures s.calls[k] != c {
        OpenSocketCounts(s.calls, s.sockets, k);
      }
    }
    hide OpenSockets;
  }

  lemma StepCounts(s: State, e: Event)
    requires Formed(s) && Enabled(s, e) && CountsOpen(s)
    ensures CountsOpen(Step(s, e))
  {
    hide CountsOpen, KeepsSockets, OnClose, OnConnect, OnRelease;
    match e
    case Connect(c, authorised) => ConnectCounts(s, c, authorised);
    case CloseFires(k) =>
      assert s.sockets[k].open;
      CloseCounts(s, k);
    case Release(c) => ReleaseCounts(s, c);
    case _ =>
      StepKeeps(s, e);
      hide Step;
      KeepsCounts(s, Step(s, e));
  }

  // ---------------------------------------------------------------- tasks

  /** At most one task joins, tracked under its call; no task leaves the active tasks. */
  ghost predicate KeepsTasks(s: State, r: State) {
    && s.calls <= r.calls && |s.tasks| <= |r.tasks| <= |s.tasks| + 1
    && (forall t :: 0 <= t < |s.tasks| ==>
          r.tasks[t].socket == s.tasks[t].socket && (r.tasks[t].body.Untracked? <==> s.tasks[t].body.Untracked?))
    && if |r.tasks| == |s.tasks| then r.active == s.active
       else
         var task := r.tasks[|s.tasks|];
         !task.body.Untracked? && task.socket < |s.calls| && r.active == Tracked(s, s.calls[task.socket])
  }

  lemma KeepsTracking(s: State, r: State)
    requires TracksTasks(s) && KeepsTasks(s, r)
    requires forall t :: 0 <= t < |s.tasks| ==> s.tasks[t].socket < |s.calls|
    ensures TracksTasks(r)
  {
    forall c, t: nat ensures t in ActiveTasks(r, c) <==> IsTracked(r.calls, r.tasks, t, c) {
      assert t in ActiveTasks(s, c) <==> IsTracked(s.calls, s.tasks, t, c);
      assert forall k :: 0 <= k < |s.calls| ==> r.calls[k] == s.calls[k];
    }
  }

  lemma UntrackedTracking(s: State, t: nat)
    requires Formed(s) && TracksTasks(s) && t < |s.tasks|
    ensures TracksTasks(OnUntracked(s, t))
  {
    var r := OnUntracked(s, t);
    assert s.tasks[t].socket < |s.calls|;
    hide Formed;
    forall c, u: nat ensures u in ActiveTasks(r, c) <==> IsTracked(r.calls, r.tasks, u, c) {
      assert u in ActiveTasks(s, c) <==> IsTracked(s.calls, s.tasks, u, c);
    }
  }

  lemma ReleaseTracking(s: State, c: string)
    requires TracksTasks(s)
    ensures TracksTasks(OnRelease(s, c))
  {
  }

  ghost predicate Keeps(s: State, r: State) {
    KeepsSockets(s, r) && KeepsTasks(s, r)
  }

  /** Aborting changes nothing the accounts look at. */
  lemma AbortKeeps(tasks: seq<Task>, a: Option<nat>)
    ensures forall t :: 0 <= t < |tasks| ==>
      AbortIn(tasks, a)[t].socket == tasks[t].socket && AbortIn(tasks, a)[t].body == tasks[t].body
  {
  }

  lemma RestartKeeps(s: State, k: nat)
    requires Formed(s) && k < |s.sockets| && s.sockets[k].pending.Some?
    ensures Keeps(s, RestartTimer(s, k))
  {
    assert |s.calls| == |s.sockets| && SocketAt(s.homes, |s.tasks|, k, s.sockets[k]);
    AbortKeeps(s.tasks, PendingTimer(s.sockets[k]));
    hide SilenceMs, AbortIn, Formed, Tracked;
  }

  lemma TurnKeeps(s: State, k: nat)
    requires Formed(s) && k < |s.sockets| && s.calls[k] in s.scenarios
    ensures Keeps(s, StartTurn(s, k))
  {
    assert |s.calls| == |s.sockets|;
    AbortKeeps(s.tasks, s.sockets[k].controller);
    hide NewOrigin, ResolveTool, AbortIn, Formed;
  }

  lemma GreetingKeeps(s: State, k: nat)
    requires Formed(s) && k < |s.sockets| && s.calls[k] in s.scenarios
    ensures Keeps(s, StartGreeting(s, k))
  {
    assert |s.calls| == |s.sockets|;
    hide NewOrigin, Formed;
  }

  lemma MessageKeeps(s: State, k: nat, m: Message)
    requires Formed(s) && k < |s.sockets|
    ensures Keeps(s, OnMessage(s, k, m))
  {
    assert |s.calls| == |s.sockets|;
    hide RestartTimer, StartTurn, StartGreeting, Formed;
    if s.calls[k] in s.scenarios && m.ResponseCreate? {
      GreetingKeeps(s, k);
      hide Keeps;
    } else if s.calls[k] in s.scenarios && m.AppendAudio? {
      hide Keeps;
      if s.sockets[k].pending.Some? {
        RestartKeeps(s, k);
      } else {
        TurnKeeps(s, k);
      }
    }
  }

  lemma BeginKeeps(s: State, k: nat, o: nat)
    requires Formed(s) && k < |s.sockets| && OriginAt(s.homes, k, o)
    ensures Keeps(s, BeginTurn(s, k, o))
  {
    AnnounceShape(s, o);
    assert |s.calls| == |s.sockets|;
    hide AnnounceSpeech, SilenceMs, Formed, Tracked;
  }

  lemma GreetKeeps(s: State, k: nat, o: nat)
    requires Formed(s) && k < |s.sockets| && OriginAt(s.homes, k, o)
    ensures Keeps(s, Greet(s, k, o))
  {
    assert |s.calls| == |s.sockets| && o < |s.origins|;
    hide ResponseEvents, Formed, Tracked;
  }

  lemma HandlerKeeps(s: State, k: nat)
    requires Formed(s) && k < |s.sockets|
    ensures Keeps(s, OnHandler(s, k))
  {
    var handler := s.sockets[k].handler;
    assert SocketAt(s.homes, |s.tasks|, k, s.sockets[k]);
    assert |s.calls| == |s.sockets|;
    hide Greet, BeginTurn, Formed;
    if handler.Greeting? {
      GreetKeeps(s, k, handler.origin);
      hide Keeps;
    } else if handler.StartingTurn? {
      BeginKeeps(s, k, handler.origin);
      hide Keeps;
    }
  }

  lemma CompleteKeeps(s: State, t: nat)
    requires Formed(s) && t < |s.tasks| && s.tasks[t].body.Timer?
    requires s.tasks[t].socket < |s.sockets| && s.tasks[t].body.origin < |s.origins|
    ensures Keeps(s, CompleteTurn(s, t))
  {
    assert |s.calls| == |s.sockets|;
    hide CallerEvents, WithoutSpeechStarted, Formed, Tracked;
  }

  lemma TimerKeeps(s: State, t: nat)
    requires Formed(s) && t < |s.tasks| && s.tasks[t].body.Timer?
    ensures Keeps(s, OnTimer(s, t))
  {
    assert s.tasks[t].socket < |s.sockets| && BodyAt(s.homes, s.tasks[t].socket, s.tasks[t].body);
    assert |s.calls| == |s.sockets|;
    CompleteKeeps(s, t);
    hide CompleteTurn, Formed;
  }

  lemma CloseKeeps(s: State, k: nat)
    requires Formed(s) && k < |s.sockets|
    ensures KeepsTasks(s, OnClose(s, k))
  {
    AbortKeeps(s.tasks, s.sockets[k].controller);
    AbortKeeps(AbortIn(s.tasks, s.sockets[k].controller), PendingTimer(s.sockets[k]));
    hide AbortIn, Formed, PendingTimer;
  }

  lemma TaskKeeps(s: State, t: nat)
    requires Formed(s) && t < |s.tasks| && IsStage(s.tasks[t].body)
    ensures Keeps(s, Step(s, TaskResumes(t)))
  {
    TaskShape(s, t);
    assert |s.calls| == |s.sockets|;
    hide Step, Formed;
  }

  lemma StepKeeps(s: State, e: Event)
    requires Formed(s) && Enabled(s, e) && !e.Release?
    ensures !e.TaskUntracked? ==> KeepsTasks(s, Step(s, e))
    ensures !e.Connect? && !e.CloseFires? ==> KeepsSockets(s, Step(s, e))
  {
    assert |s.calls| == |s.sockets|;
    hide Formed, OnMessage, OnHandler, OnTimer, OnClose, KeepsTasks, KeepsSockets;
    match e
    case Deliver(k, m) => MessageKeeps(s, k, m);
    case ResumeHandler(k) => HandlerKeeps(s, k);
    case TimerWakes(t) => TimerKeeps(s, t);
    case TaskResumes(t) => TaskKeeps(s, t); hide Step;
    case CloseFires(k) => CloseKeeps(s, k);
    case _ => hide Step; QuietKeeps(s, e);
  }

  lemma QuietTasks(s: State, e: Event)
    requires Formed(s) && Enabled(s, e) && !e.Release? && !e.CloseFires?
    requires !e.Deliver? && !e.ResumeHandler? && !e.TimerWakes? && !e.TaskResumes?
    ensures !e.TaskUntracked? ==> KeepsTasks(s, Step(s, e))
  {
    hide Formed, Tracked;
  }

  lemma QuietSockets(s: State, e: Event)
    requires Formed(s) && Enabled(s, e) && !e.Release? && !e.CloseFires?
    requires !e.Deliver? && !e.ResumeHandler? && !e.TimerWakes? && !e.TaskResumes?
    ensures !e.Connect? ==> KeepsSockets(s, Step(s, e))
  {
    assert |s.calls| == |s.sockets|;
    hide Formed, Tracked;
  }

  lemma QuietKeeps(s: State, e: Event)
    requires Formed(s) && Enabled(s, e) && !e.Release? && !e.CloseFires?
    requires !e.Deliver? && !e.ResumeHandler? && !e.TimerWakes? && !e.TaskResumes?
    ensures !e.TaskUntracked? ==> KeepsTasks(s, Step(s, e))
    ensures !e.Connect? ==> KeepsSockets(s, Step(s, e))
  {
    hide Formed, Step, Enabled, KeepsTasks, KeepsSockets;
    QuietTasks(s, e);
    QuietSockets(s, e);
  }

  lemma StepTracks(s: State, e: Event)
    requires Formed(s) && Enabled(s, e) && TracksTasks(s)
    ensures TracksTasks(Step(s, e))
  {
    hide TracksTasks, KeepsTasks, OnUntracked, OnRelease;
    match e
    case TaskUntracked(t) => UntrackedTracking(s, t);
    case Release(c) => ReleaseTracking(s, c);
    case _ =>
      assert forall t :: 0 <= t < |s.tasks| ==> s.tasks[t].socket < |s.calls|;
      StepKeeps(s, e);
      hide Step;
      KeepsTracking(s, Step(s, e));
  }

  lemma {:induction false} RunAccounts(events: seq<Event>)
    requires Run(events).Some?
    ensures CountsOpen(Run(events).value) && TracksTasks(Run(events).value)
  {
    if events != [] {
      RunAccounts(events[..|events| - 1]);
      hide CountsOpen, TracksTasks, Step;
      StepCounts(Run(events[..|events| - 1]).value, events[|events| - 1]);
      StepTracks(Run(events[..|events| - 1]).value, events[|events| - 1]);
    }
  }

  // ---------------------------------------------------------------- theorems

  /** In every run the connection count of a call is the number of its open sockets, an open socket's call still has its
    scenario, and closing an open socket never meets the floor of zero. */
  lemma ConnectionCountIsExact(events: seq<Event>, c: string)
    requires Run(events).Some?
    ensures var s := Run(events).value;
      && |s.calls| == |s.sockets| && Count(s.counts, c) == OpenSockets(s.calls, s.sockets, c)
      && (forall k :: 0 <= k < |s.sockets| && s.sockets[k].open ==>
            s.calls[k] in s.scenarios && Count(s.counts, s.calls[k]) >= 1)
  {
    RunAccounts(events);
    var s := Run(events).value;
    forall k | 0 <= k < |s.sockets| && s.sockets[k].open ensures Count(s.counts, s.calls[k]) >= 1 {
      OpenSocketCounts(s.calls, s.sockets, k);
    }
  }

  /** In every run a call can be released exactly when it has no open socket and no task left to untrack. */
  lemma ReleaseExactlyWhenQuiet(events: seq<Event>, c: string)
    requires Run(events).Some?
    ensures var s := Run(events).value;
      Releasable(s, c) <==>
        && (forall k :: 0 <= k < |s.sockets| && s.sockets[k].open ==> s.calls[k] != c)
        && (forall t :: 0 <= t < |s.tasks| && !s.tasks[t].body.Untracked? ==> s.calls[s.tasks[t].socket] != c)
  {
    RunAccounts(events);
    var s := Run(events).value;
    assert forall t :: 0 <= t < |s.tasks| ==> s.tasks[t].socket < |s.calls|;
    if Releasable(s, c) {
      forall k | 0 <= k < |s.sockets| && s.sockets[k].open ensures s.calls[k] != c {
        OpenSocketCounts(s.calls, s.sockets, k);
      }
      forall t | 0 <= t < |s.tasks| && !s.tasks[t].body.Untracked? ensures s.calls[s.tasks[t].socket] != c {
        assert IsTracked(s.calls, s.tasks, t, s.calls[s.tasks[t].socket]);
      }
    } else if forall k :: 0 <= k < |s.sockets| && s.sockets[k].open ==> s.calls[k] != c {
      NoOpenSocket(s.calls, s.sockets, c);
      var t :| t in ActiveTasks(s, c);
      assert IsTracked(s.calls, s.tasks, t, c);
    }
  }
}
