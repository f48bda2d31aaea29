/** What each step of the provider simulator adds to the outbound trace. */
module RealtimeTrace {
  import opened Options
  import opened Scripts
  import opened RealtimeModel
  import opened RealtimeForm
  import opened RealtimeTurns

  /** The origin that may write to its socket in this step. */
  function Speaker(s: State, e: Event): Option<nat> {
    match e
    case ResumeHandler(k) =>
      if k < |s.sockets| && s.sockets[k].handler.StartingTurn? then Some(s.sockets[k].handler.origin) else None
    case TaskResumes(t) => if t < |s.tasks| then OriginOf(s.tasks[t].body) else None
    case _ => None
  }

  /** Caller audio that starts a turn. */
  predicate TakesOver(s: State, e: Event) {
    e.Deliver? && e.message.AppendAudio? && e.socket < |s.sockets| == |s.calls|
    && s.calls[e.socket] in s.scenarios && s.sockets[e.socket].pending.None?
  }

  function RecordOf(s: State, o: nat): seq<Wire> {
    if o < |s.origins| then s.origins[o].sent else []
  }

  ghost predicate Silent(s: State, r: State) {
    r.trace == s.trace && forall o: nat :: RecordOf(r, o) == RecordOf(s, o)
  }

  /** The last entry of the longer trace. */
  function Added(s: State, r: State): Entry
    requires |r.trace| == |s.trace| + 1
  {
    r.trace[|s.trace|]
  }

  /** Nothing was written, or one frame of `o` was; a response event carries the generation of its origin, which is the
    current one of the call. */
  ghost predicate Spoke(s: State, r: State, o: nat) {
    && o < |s.origins| && o < |s.homes| && s.homes[o] < |s.sockets| && s.homes[o] < |s.calls|
    && (forall i: nat :: i != o ==> RecordOf(r, i) == RecordOf(s, i))
    && if r.trace == s.trace then RecordOf(r, o) == RecordOf(s, o)
       else
         var c := s.calls[s.homes[o]];
         && |r.trace| == |s.trace| + 1
         && var added := Added(s, r);
         && added.Sent? && r.trace == s.trace + [Sent(c, Count(s.lifetimes, c), o, added.wire, added.tag)]
         && RecordOf(r, o) == RecordOf(s, o) + [added.wire]
         && s.sockets[s.homes[o]].writable
         && (added.tag.Some? ==> added.tag.value == s.origins[o].generation == Count(s.generations, c))
  }

  lemma WriteSpeaks(s: State, o: nat, wire: Wire, tag: Option<nat>)
    requires Formed(s) && o < |s.origins|
    requires tag.Some? ==> tag.value == s.origins[o].generation == Count(s.generations, s.calls[s.homes[o]])
    ensures Spoke(s, Write(s, o, wire, tag), o)
  {
    var r, k := Write(s, o, wire, tag), s.homes[o];
    assert k < |s.sockets| == |s.calls| && o < |s.homes|;
    hide Formed;
    if Writable(s, o) {
      assert r.trace == s.trace + [Sent(s.calls[k], Count(s.lifetimes, s.calls[k]), o, wire, tag)];
      assert r.trace != s.trace && Added(s, r) == Sent(s.calls[k], Count(s.lifetimes, s.calls[k]), o, wire, tag);
      assert r.origins == s.origins[o := s.origins[o].(sent := s.origins[o].sent + [wire])];
      hide Write, Added;
    }
  }

  /** What follows a write in the same step leaves trace and records alone. */
  lemma SpokeKeeps(s: State, w: State, r: State, o: nat)
    requires Spoke(s, w, o) && r.trace == w.trace && |r.origins| == |w.origins|
    requires forall i :: 0 <= i < |r.origins| ==> r.origins[i].sent == w.origins[i].sent
    ensures Spoke(s, r, o)
  {
  }

  lemma BeginTurnSpeaks(s: State, k: nat, o: nat)
    requires Formed(s) && k < |s.sockets| && OriginAt(s.homes, k, o)
    ensures Spoke(s, BeginTurn(s, k, o), o)
  {
    var w := AnnounceSpeech(s, o);
    assert Spoke(s, w, o) by {
      var started := FindSpeechStarted(CallerEvents(s.origins[o].events));
      if started.Some? {
        WriteSpeaks(s, o, Json(started.value), None);
      }
    }
    hide Spoke, AnnounceSpeech, Formed, SilenceMs;
    SpokeKeeps(s, w, BeginTurn(s, k, o), o);
  }

  lemma CallerStageSpeaks(s: State, t: nat, o: nat)
    requires Formed(s) && t < |s.tasks| && s.tasks[t].body.CallerStage? && s.tasks[t].body.origin == o
    requires o < |s.origins|
    ensures Spoke(s, OnCallerStage(s, t), o)
  {
    var rest := s.tasks[t].body.rest;
    var w := if rest == [] || s.tasks[t].aborted then s else Write(s, o, Json(rest[0]), None);
    assert Spoke(s, w, o) by {
      if rest != [] {
        WriteSpeaks(s, o, Json(rest[0]), None);
      }
      hide Write;
    }
    hide Spoke, Formed, Write;
    SpokeKeeps(s, w, OnCallerStage(s, t), o);
  }

  lemma EndingSpeaks(s: State, w: State, t: nat, o: nat, complete: bool, body: Body, k: nat)
    requires Spoke(s, w, o) && t < |w.tasks| && o < |w.origins| && k < |w.sockets|
    ensures Spoke(s, Finish(w, t, o, complete), o) && Spoke(s, Continue(w, t, o, body), o)
    ensures Spoke(s, CloseSocket(Finish(w, t, o, complete), k), o)
  {
    hide Spoke;
    SpokeKeeps(s, w, Finish(w, t, o, complete), o);
    SpokeKeeps(s, w, Continue(w, t, o, body), o);
    SpokeKeeps(s, w, CloseSocket(Finish(w, t, o, complete), k), o);
  }

  lemma BrokenFrameSpeaks(s: State, t: nat, o: nat, complete: bool)
    requires Formed(s) && t < |s.tasks| && o < |s.origins|
    ensures Spoke(s, Finish(Write(s, o, InvalidJson, None), t, o, complete), o)
  {
    var w := Write(s, o, InvalidJson, None);
    WriteSpeaks(s, o, InvalidJson, None);
    WriteShape(s, o, InvalidJson, None);
    hide Spoke, Formed, Write;
    SpokeKeeps(s, w, Finish(w, t, o, complete), o);
  }

  lemma ModeStageSpeaks(s: State, t: nat, o: nat)
    requires Formed(s) && t < |s.tasks| && s.tasks[t].body.ModeStage? && s.tasks[t].body.origin == o
    requires o < |s.origins| && s.tasks[t].socket < |s.sockets|
    ensures Spoke(s, OnModeStage(s, t), o)
  {
    var k, later := s.tasks[t].socket, ResponseStage(o, ResponseEvents(s.origins[o].events));
    assert o < |s.homes| && s.homes[o] < |s.sockets| == |s.calls|;
    assert Spoke(s, s, o);
    BrokenFrameSpeaks(s, t, o, Writable(s, o));
    hide Spoke, Formed, Write, ResponseEvents, Writable, Finish, Continue, CloseSocket;
    EndingSpeaks(s, s, t, o, false, Ended, k);
    EndingSpeaks(s, s, t, o, Writable(s, o), later, k);
  }

  lemma ResponseStageSpeaks(s: State, t: nat, o: nat)
    requires Formed(s) && t < |s.tasks| && s.tasks[t].body.ResponseStage? && s.tasks[t].body.origin == o
    requires o < |s.origins| && s.homes[o] == s.tasks[t].socket < |s.sockets|
    ensures Spoke(s, OnResponseStage(s, t), o)
  {
    var rest, generation, k := s.tasks[t].body.rest, s.origins[o].generation, s.tasks[t].socket;
    assert o < |s.homes| && k < |s.calls|;
    assert Spoke(s, s, o);
    EndingSpeaks(s, s, t, o, false, Ended, k);
    EndingSpeaks(s, s, t, o, Writable(s, o) && !s.tasks[t].aborted, Ended, k);
    if rest != [] && Count(s.generations, s.calls[k]) == generation {
      var w := Write(s, o, Json(rest[0]), Some(generation));
      WriteSpeaks(s, o, Json(rest[0]), Some(generation));
      WriteShape(s, o, Json(rest[0]), Some(generation));
      assert |w.tasks| == |s.tasks| && |w.origins| == |s.origins| && |w.sockets| == |s.sockets|;
      hide Spoke, Formed, Write, Writable, Finish, Continue, OnlyWrote;
      EndingSpeaks(s, w, t, o, Writable(s, o), ResponseStage(o, rest[1..]), k);
    }
    hide Spoke, Formed, Write, Writable, Finish, Continue;
  }

  lemma TaskSpeaks(s: State, t: nat)
    requires Formed(s) && t < |s.tasks| && IsStage(s.tasks[t].body)
    ensures Spoke(s, Step(s, TaskResumes(t)), OriginOf(s.tasks[t].body).value)
  {
    assert BodyAt(s.homes, s.tasks[t].socket, s.tasks[t].body);
    hide Spoke, OnCallerStage, OnModeStage, OnResponseStage;
    match s.tasks[t].body
    case CallerStage(o, _) => CallerStageSpeaks(s, t, o);
    case ModeStage(o) => ModeStageSpeaks(s, t, o);
    case ResponseStage(o, _) => ResponseStageSpeaks(s, t, o);
  }

  lemma AudioTakesOver(s: State, k: nat)
    requires Formed(s) && TakesOver(s, Deliver(k, AppendAudio))
    ensures var c := s.calls[k]; var r := OnMessage(s, k, AppendAudio);
      && r.trace == s.trace + [TurnStarted(c, Count(s.lifetimes, c), |s.origins|, Count(s.generations, c) + 1)]
      && forall o: nat :: RecordOf(r, o) == RecordOf(s, o)
  {
    hide ResolveTool, Script;
  }

  lemma MessageSilent(s: State, k: nat, m: Message)
    requires Formed(s) && Enabled(s, Deliver(k, m)) && !TakesOver(s, Deliver(k, m))
    ensures Silent(s, OnMessage(s, k, m))
  {
    hide StartTurn, Script, SilenceMs;
  }

  lemma TimerSilent(s: State, t: nat)
    requires Formed(s) && t < |s.tasks| && s.tasks[t].body.Timer?
    ensures Silent(s, OnTimer(s, t))
  {
    hide CallerEvents, WithoutSpeechStarted;
    assert s.tasks[t].socket < |s.sockets| && BodyAt(s.homes, s.tasks[t].socket, s.tasks[t].body);
    hide Formed, AbortIn;
  }

  lemma HandlerSpeaks(s: State, k: nat)
    requires Formed(s) && k < |s.sockets|
    ensures if s.sockets[k].handler.StartingTurn? then Spoke(s, OnHandler(s, k), s.sockets[k].handler.origin)
            else Silent(s, OnHandler(s, k))
  {
    assert SocketAt(s.homes, |s.tasks|, k, s.sockets[k]);
    if s.sockets[k].handler.StartingTurn? {
      BeginTurnSpeaks(s, k, s.sockets[k].handler.origin);
    }
    hide BeginTurn, ResponseEvents, Spoke, Formed, AbortIn;
  }

  lemma StepTrace(s: State, e: Event)
    requires Formed(s) && Enabled(s, e)
    ensures var r := Step(s, e);
      if TakesOver(s, e) then
        var c := s.calls[e.socket];
        && r.trace == s.trace + [TurnStarted(c, Count(s.lifetimes, c), |s.origins|, Count(s.generations, c) + 1)]
        && forall o: nat :: RecordOf(r, o) == RecordOf(s, o)
      else if Speaker(s, e).Some? then Spoke(s, r, Speaker(s, e).value)
      else Silent(s, r)
  {
    hide StartTurn, Spoke, OnMessage, OnHandler, OnTimer, Formed;
    match e
    case Deliver(k, m) =>
      if TakesOver(s, e) {
        AudioTakesOver(s, k);
      } else {
        MessageSilent(s, k, m);
      }
    case ResumeHandler(k) => HandlerSpeaks(s, k);
    case TaskResumes(t) =>
      hide Step, Silent;
      TaskSpeaks(s, t);
    case TimerWakes(t) => TimerSilent(s, t);
    case _ =>
  }
}
