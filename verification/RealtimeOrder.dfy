/** Within one life of a call the generations in the outbound trace never go back, and sequence numbers are never
  reused. */
module RealtimeOrder {
  import opened Options
  import opened Scripts
  import opened RealtimeModel
  import opened RealtimeForm
  import opened RealtimeTurns
  import opened RealtimeTrace

  // ---------------------------------------------------------------- the per-call tables

  /** A `response.create` that starts a greeting. */
  predicate StartsGreeting(s: State, e: Event) {
    e.Deliver? && e.message.ResponseCreate? && e.socket < |s.sockets| == |s.calls| && s.calls[e.socket] in s.scenarios
  }

  predicate StartsOrigin(s: State, e: Event) {
    TakesOver(s, e) || StartsGreeting(s, e)
  }

  ghost predicate SameTables(s: State, r: State) {
    r.lifetimes == s.lifetimes && r.generations == s.generations && r.sequences == s.sequences
  }

  ghost predicate OriginsKept(s: State, r: State) {
    && |r.homes| == |r.origins| >= |s.origins| == |s.homes|
    && forall i :: 0 <= i < |s.origins| ==>
         && r.homes[i] == s.homes[i] && r.origins[i].lifetime == s.origins[i].lifetime
         && r.origins[i].sequence == s.origins[i].sequence && r.origins[i].scenario == s.origins[i].scenario
         && r.origins[i].greeting == s.origins[i].greeting
         && (r.origins[i].place.InHandler? ==> s.origins[i].place.InHandler?)
         && (!(s.origins[i].greeting && s.origins[i].place.InHandler?) ==>
               r.origins[i].generation == s.origins[i].generation)
  }

  /** How a step may change the tables: a new origin takes the next sequence number - and, for a turn, the next
    generation - and a release forgets the call and starts its next life. */
  ghost predicate TablesStep(s: State, e: Event, r: State) {
    if StartsOrigin(s, e) then
      var c := s.calls[e.socket];
      && r.lifetimes == s.lifetimes && r.sequences == s.sequences[c := Count(s.sequences, c) + 1]
      && r.generations == (if TakesOver(s, e) then s.generations[c := Count(s.generations, c) + 1] else s.generations)
      && |r.origins| == |s.origins| + 1 && r.homes == s.homes + [e.socket]
      && r.origins[|s.origins|].lifetime == Count(s.lifetimes, c)
      && r.origins[|s.origins|].sequence == Count(s.sequences, c) + 1
      && r.origins[|s.origins|].scenario.responseSequence == Some(Count(s.sequences, c) + 1)
      && r.origins[|s.origins|].place.InHandler? && r.origins[|s.origins|].greeting == !TakesOver(s, e)
      && (TakesOver(s, e) ==> r.origins[|s.origins|].generation == Count(s.generations, c) + 1)
      && (StartsGreeting(s, e) ==> r.origins[|s.origins|].scenario.mode.Normal?)
    else if e.Release? && Releasable(s, e.call) then
      var c := e.call;
      && r.origins == s.origins && r.homes == s.homes && r.lifetimes == s.lifetimes[c := Count(s.lifetimes, c) + 1]
      && r.generations == s.generations - {c} && r.sequences == s.sequences - {c}
    else SameTables(s, r) && |r.origins| == |s.origins|
  }

  lemma AudioTables(s: State, k: nat)
    requires Formed(s) && k < |s.sockets| && s.calls[k] in s.scenarios && s.sockets[k].pending.None?
    ensures var r := OnMessage(s, k, AppendAudio);
      TablesStep(s, Deliver(k, AppendAudio), r) && OriginsKept(s, r) && r.calls == s.calls
  {
    assert |s.homes| == |s.origins| && |s.calls| == |s.sockets|;
    hide ResolveTool, Script, Formed, SilenceMs, AbortIn;
  }

  lemma GreetingTables(s: State, k: nat)
    requires Formed(s) && k < |s.sockets| && s.calls[k] in s.scenarios
    ensures var r := OnMessage(s, k, ResponseCreate);
      TablesStep(s, Deliver(k, ResponseCreate), r) && OriginsKept(s, r) && r.calls == s.calls
  {
    assert |s.homes| == |s.origins| && |s.calls| == |s.sockets|;
    hide Script, Formed, SilenceMs, AbortIn;
  }

  lemma RestartTables(s: State, k: nat)
    requires Formed(s) && k < |s.sockets| && s.sockets[k].pending.Some?
    ensures var r := RestartTimer(s, k);
      SameTables(s, r) && r.origins == s.origins && r.homes == s.homes && r.calls == s.calls
  {
    hide Formed, SilenceMs, AbortIn, Tracked;
  }

  lemma MessageTables(s: State, k: nat, m: Message)
    requires Formed(s) && k < |s.sockets| && !StartsOrigin(s, Deliver(k, m))
    ensures var r := OnMessage(s, k, m);
      TablesStep(s, Deliver(k, m), r) && OriginsKept(s, r) && r.calls == s.calls
  {
    assert |s.homes| == |s.origins| && |s.calls| == |s.sockets|;
    QuietMessage(s, k, m);
    hide Formed, OnMessage, SameTables, StartsOrigin;
    SameOriginsKept(s, OnMessage(s, k, m));
  }

  /** A message that starts no turn and no greeting. */
  lemma QuietMessage(s: State, k: nat, m: Message)
    requires Formed(s) && k < |s.sockets| && !StartsOrigin(s, Deliver(k, m))
    ensures var r := OnMessage(s, k, m);
      SameTables(s, r) && r.origins == s.origins && r.homes == s.homes && r.calls == s.calls
  {
    assert |s.calls| == |s.sockets|;
    hide RestartTimer, StartTurn, StartGreeting, Formed;
    if m.AppendAudio? && s.calls[k] in s.scenarios {
      assert OnMessage(s, k, m) == RestartTimer(s, k);
      hide OnMessage;
      RestartTables(s, k);
    } else {
      assert m.ResponseCreate? ==> s.calls[k] !in s.scenarios;
    }
  }

  lemma GreetTables(s: State, k: nat, o: nat)
    requires Formed(s) && k < |s.sockets| && OriginAt(s.homes, k, o)
    requires s.origins[o].greeting && s.origins[o].place.InHandler?
    ensures var r := Greet(s, k, o); SameTables(s, r) && OriginsKept(s, r) && r.calls == s.calls
    ensures |Greet(s, k, o).origins| == |s.origins|
  {
    assert |s.homes| == |s.origins| && |s.calls| == |s.sockets|;
    hide ResponseEvents, Formed, AbortIn;
  }

  lemma BeginTables(s: State, k: nat, o: nat)
    requires Formed(s) && k < |s.sockets| && OriginAt(s.homes, k, o)
    ensures var r := BeginTurn(s, k, o); SameTables(s, r) && OriginsKept(s, r) && r.calls == s.calls
    ensures |BeginTurn(s, k, o).origins| == |s.origins|
  {
    assert |s.homes| == |s.origins| && |s.calls| == |s.sockets|;
    AnnounceShape(s, o);
    hide AnnounceSpeech, Formed, SilenceMs;
  }

  lemma FreeTables(s: State, k: nat)
    requires Formed(s) && k < |s.sockets|
    ensures var r := s.(sockets := s.sockets[k := s.sockets[k].(handler := Free)]);
      SameTables(s, r) && OriginsKept(s, r)
  {
  }

  lemma HandlerTables(s: State, k: nat)
    requires Formed(s) && Turns(s) && k < |s.sockets|
    ensures var r := OnHandler(s, k); SameTables(s, r) && OriginsKept(s, r) && r.calls == s.calls
    ensures |OnHandler(s, k).origins| == |s.origins|
  {
    var handler := s.sockets[k].handler;
    assert SocketAt(s.homes, |s.tasks|, k, s.sockets[k]) && |s.homes| == |s.origins|;
    assert handler.Greeting? ==> s.origins[handler.origin].greeting && s.origins[handler.origin].place.InHandler?;
    hide Greet, BeginTurn, Turns, Formed, SameTables;
    if handler.Greeting? {
      hide OriginsKept;
      GreetTables(s, k, handler.origin);
    } else if handler.StartingTurn? {
      hide OriginsKept;
      BeginTables(s, k, handler.origin);
    } else {
      FreeTables(s, k);
    }
  }

  lemma CompleteTables(s: State, t: nat)
    requires Formed(s) && t < |s.tasks| && s.tasks[t].body.Timer?
    requires s.tasks[t].body.origin < |s.origins| && s.tasks[t].socket < |s.sockets|
    ensures var r := CompleteTurn(s, t); SameTables(s, r) && OriginsKept(s, r) && r.calls == s.calls
    ensures |CompleteTurn(s, t).origins| == |s.origins|
  {
    assert |s.homes| == |s.origins| && |s.calls| == |s.sockets|;
    hide CallerEvents, WithoutSpeechStarted, Formed, AbortIn;
  }

  lemma TimerTables(s: State, t: nat)
    requires Formed(s) && t < |s.tasks| && s.tasks[t].body.Timer?
    ensures var r := OnTimer(s, t); SameTables(s, r) && OriginsKept(s, r) && r.calls == s.calls
    ensures |OnTimer(s, t).origins| == |s.origins|
  {
    assert s.tasks[t].socket < |s.sockets| && BodyAt(s.homes, s.tasks[t].socket, s.tasks[t].body);
    assert |s.homes| == |s.origins|;
    CompleteTables(s, t);
    hide Formed, CompleteTurn;
  }

  lemma TaskTables(s: State, t: nat)
    requires Formed(s) && t < |s.tasks| && IsStage(s.tasks[t].body)
    ensures var r := Step(s, TaskResumes(t)); SameTables(s, r) && OriginsKept(s, r) && r.calls == s.calls
    ensures |Step(s, TaskResumes(t)).origins| == |s.origins|
  {
    TaskMoves(s, t);
    var o, move := OriginOf(s.tasks[t].body).value, MoveOf(s, t);
    assert move.origin == s.origins[o].(sent := move.origin.sent, place := move.origin.place);
    assert move.origin.place == s.origins[o].place || move.origin.place.Over?;
    assert |s.homes| == |s.origins|;
    hide Formed, Step, MoveOf;
  }

  lemma ReleaseTables(s: State, c: string)
    requires Formed(s)
    ensures TablesStep(s, Release(c), OnRelease(s, c)) && OriginsKept(s, OnRelease(s, c))
  {
    assert |s.homes| == |s.origins|;
    hide Formed, Releasable;
  }

  lemma OtherTables(s: State, e: Event)
    requires Formed(s) && Enabled(s, e)
    requires !e.Deliver? && !e.ResumeHandler? && !e.TimerWakes? && !e.TaskResumes? && !e.Release?
    ensures SameTables(s, Step(s, e)) && Step(s, e).origins == s.origins && Step(s, e).homes == s.homes
    ensures s.calls <= Step(s, e).calls
  {
    hide AbortIn, Formed;
  }

  lemma DeliverTables(s: State, k: nat, m: Message)
    requires Formed(s) && k < |s.sockets|
    ensures var r := OnMessage(s, k, m);
      TablesStep(s, Deliver(k, m), r) && OriginsKept(s, r) && r.calls == s.calls
  {
    hide OnMessage, TablesStep, OriginsKept;
    if TakesOver(s, Deliver(k, m)) {
      AudioTables(s, k);
    } else if StartsGreeting(s, Deliver(k, m)) {
      GreetingTables(s, k);
    } else {
      MessageTables(s, k, m);
    }
  }

  lemma StepTables(s: State, e: Event)
    requires Formed(s) && Turns(s) && Enabled(s, e)
    ensures TablesStep(s, e, Step(s, e)) && OriginsKept(s, Step(s, e)) && s.calls <= Step(s, e).calls
  {
    assert |s.homes| == |s.origins|;
    hide OriginsKept, Formed, Turns;
    if e.Deliver? {
      hide TablesStep, OnMessage;
      DeliverTables(s, e.socket, e.message);
    } else if e.Release? {
      hide TablesStep, OnRelease;
      ReleaseTables(s, e.call);
      assert OnRelease(s, e.call).calls == s.calls by { ReleaseCalls(s, e.call); }
    } else {
      QuietTables(s, e);
      hide Step, SameTables;
    }
  }

  lemma ReleaseCalls(s: State, c: string)
    ensures OnRelease(s, c).calls == s.calls
  {
    hide Releasable;
  }

  lemma QuietTables(s: State, e: Event)
    requires Formed(s) && Turns(s) && Enabled(s, e) && !e.Deliver? && !e.Release?
    ensures SameTables(s, Step(s, e)) && |Step(s, e).origins| == |s.origins|
    ensures OriginsKept(s, Step(s, e)) && s.calls <= Step(s, e).calls
  {
    assert |s.homes| == |s.origins|;
    hide OriginsKept, Formed, Turns, SameTables, OnHandler, OnTimer;
    if e.ResumeHandler? {
      HandlerTables(s, e.socket);
    } else if e.TimerWakes? {
      TimerTables(s, e.task);
    } else {
      hide Step;
      if e.TaskResumes? {
        TaskTables(s, e.task);
      } else {
        OtherTables(s, e);
        SameOriginsKept(s, Step(s, e));
      }
    }
  }

  lemma SameOriginsKept(s: State, r: State)
    requires |s.homes| == |s.origins| && r.origins == s.origins && r.homes == s.homes
    ensures OriginsKept(s, r)
  {
  }

  // ---------------------------------------------------------------- generations in the trace

  function GenerationOf(e: Entry): Option<nat> {
    if e.TurnStarted? then Some(e.generation) else e.tag
  }

  /** Two entries of one life of one call that carry generations, the first before the second. */
  predicate SameLife(a: Entry, b: Entry) {
    a.call == b.call && a.lifetime == b.lifetime && GenerationOf(a).Some? && GenerationOf(b).Some?
  }

  ghost predicate Ordered(trace: seq<Entry>) {
    forall i, j :: 0 <= i < j < |trace| && SameLife(trace[i], trace[j]) ==>
      && GenerationOf(trace[i]).value <= GenerationOf(trace[j]).value
      && (trace[j].TurnStarted? ==> GenerationOf(trace[i]).value < GenerationOf(trace[j]).value)
  }

  /** Nothing in the trace is ahead of the call's tables. */
  ghost predicate Behind(trace: seq<Entry>, lifetimes: map<string, nat>, generations: map<string, nat>) {
    forall i :: 0 <= i < |trace| ==>
      && trace[i].lifetime <= Count(lifetimes, trace[i].call)
      && (trace[i].lifetime == Count(lifetimes, trace[i].call) && GenerationOf(trace[i]).Some? ==>
            GenerationOf(trace[i]).value <= Count(generations, trace[i].call))
  }

  ghost predicate Superseding(s: State) {
    Ordered(s.trace) && Behind(s.trace, s.lifetimes, s.generations)
  }

  /** An entry of the current life that is not behind what the tables allow keeps the order. */
  lemma EntryJoins(trace: seq<Entry>, e: Entry, lifetimes: map<string, nat>, before: map<string, nat>,
                   after: map<string, nat>)
    requires Ordered(trace) && Behind(trace, lifetimes, before) && e.lifetime == Count(lifetimes, e.call)
    requires forall c :: Count(before, c) <= Count(after, c)
    requires GenerationOf(e).Some? ==> Count(before, e.call) <= GenerationOf(e).value <= Count(after, e.call)
    requires e.TurnStarted? ==> Count(before, e.call) < e.generation
    ensures Ordered(trace + [e]) && Behind(trace + [e], lifetimes, after)
  {
  }

  lemma ReleaseKeepsOrder(s: State, c: string)
    requires Superseding(s)
    ensures Superseding(OnRelease(s, c))
  {
  }

  lemma StepSuperseding(s: State, e: Event)
    requires Formed(s) && Turns(s) && Enabled(s, e) && Superseding(s)
    ensures Superseding(Step(s, e))
  {
    var r := Step(s, e);
    StepTables(s, e);
    StepTrace(s, e);
    hide Formed, Turns, Ordered, Behind, OriginsKept, Enabled;
    if e.Release? {
      ReleaseKeepsOrder(s, e.call);
    } else {
      hide Step;
      if r.trace != s.trace {
        EntryJoins(s.trace, r.trace[|s.trace|], s.lifetimes, s.generations, r.generations);
      }
    }
  }

  lemma {:induction false} RunSuperseding(events: seq<Event>)
    requires Run(events).Some?
    ensures Superseding(Run(events).value)
  {
    if events != [] {
      RunSuperseding(events[..|events| - 1]);
      RunTurns(events[..|events| - 1]);
      hide Superseding;
      StepSuperseding(Run(events[..|events| - 1]).value, events[|events| - 1]);
    }
  }

  /** In every run, within one life of a call, the generations of turns and of response events never go back in the
    outbound trace, and a turn is strictly ahead of all that came before it. */
  lemma GenerationsNeverGoBack(events: seq<Event>, i: nat, j: nat)
    requires Run(events).Some? && i < j < |Run(events).value.trace|
    requires var trace := Run(events).value.trace; SameLife(trace[i], trace[j])
    ensures var trace := Run(events).value.trace;
      && GenerationOf(trace[i]).value <= GenerationOf(trace[j]).value
      && (trace[j].TurnStarted? ==> GenerationOf(trace[i]).value < GenerationOf(trace[j]).value)
  {
    RunSuperseding(events);
  }

  // ---------------------------------------------------------------- sequence numbers

  ghost predicate Numbered(s: State) {
    && |s.homes| == |s.origins|
    && (forall o :: 0 <= o < |s.homes| ==> s.homes[o] < |s.calls|)
    && (forall o :: 0 <= o < |s.origins| ==>
          var c := s.calls[s.homes[o]];
          && s.origins[o].scenario.responseSequence == Some(s.origins[o].sequence)
          && s.origins[o].lifetime <= Count(s.lifetimes, c)
          && (s.origins[o].lifetime == Count(s.lifetimes, c) ==> s.origins[o].sequence <= Count(s.sequences, c)))
    && (forall o, p :: 0 <= o < p < |s.origins| && s.calls[s.homes[o]] == s.calls[s.homes[p]] ==>
          (s.origins[o].lifetime == s.origins[p].lifetime ==> s.origins[o].sequence < s.origins[p].sequence))
  }

  lemma NumberedJoins(s: State, e: Event, r: State)
    requires Numbered(s) && StartsOrigin(s, e) && TablesStep(s, e, r) && OriginsKept(s, r) && |r.calls| >= |s.calls|
    requires forall k :: 0 <= k < |s.calls| ==> r.calls[k] == s.calls[k]
    ensures Numbered(r)
  {
    hide Releasable;
  }

  lemma NumberedStays(s: State, e: Event, r: State)
    requires Numbered(s) && !StartsOrigin(s, e) && TablesStep(s, e, r) && OriginsKept(s, r) && |r.calls| >= |s.calls|
    requires forall k :: 0 <= k < |s.calls| ==> r.calls[k] == s.calls[k]
    ensures Numbered(r)
  {
    hide Releasable, StartsOrigin;
  }

  lemma NumberedStep(s: State, e: Event, r: State)
    requires Numbered(s) && TablesStep(s, e, r) && OriginsKept(s, r) && |r.calls| >= |s.calls|
    requires forall k :: 0 <= k < |s.calls| ==> r.calls[k] == s.calls[k]
    ensures Numbered(r)
  {
    hide Numbered, TablesStep, OriginsKept, StartsOrigin;
    if StartsOrigin(s, e) {
      NumberedJoins(s, e, r);
    } else {
      NumberedStays(s, e, r);
    }
  }

  lemma StepNumbered(s: State, e: Event)
    requires Formed(s) && Turns(s) && Enabled(s, e) && Numbered(s)
    ensures Numbered(Step(s, e))
  {
    var r := Step(s, e);
    StepTables(s, e);
    assert |r.calls| >= |s.calls| && forall k :: 0 <= k < |s.calls| ==> r.calls[k] == s.calls[k];
    hide Formed, Turns, Step, Enabled, Numbered, OriginsKept, TablesStep;
    NumberedStep(s, e, r);
  }

  lemma {:induction false} RunNumbered(events: seq<Event>)
    requires Run(events).Some?
    ensures Numbered(Run(events).value)
  {
    if events != [] {
      RunNumbered(events[..|events| - 1]);
      RunTurns(events[..|events| - 1]);
      hide Numbered;
      StepNumbered(Run(events[..|events| - 1]).value, events[|events| - 1]);
    }
  }

  /** In every run, two turns or greetings of one life of a call have different sequence numbers, in the order they
    started, and so no response, item or assistant id in common. */
  lemma IdsAreDistinct(events: seq<Event>, o: nat, p: nat)
    requires Run(events).Some?
    ensures var s := Run(events).value;
      o < p < |s.origins| == |s.homes| && s.homes[o] < |s.calls| && s.homes[p] < |s.calls|
      && s.calls[s.homes[o]] == s.calls[s.homes[p]] && s.origins[o].lifetime == s.origins[p].lifetime ==>
        var a, b := Identity(s.origins[o].scenario), Identity(s.origins[p].scenario);
        && s.origins[o].sequence < s.origins[p].sequence
        && "response-" + a != "response-" + b && "item-" + a != "item-" + b && "assistant-" + a != "assistant-" + b
  {
    RunNumbered(events);
    var s := Run(events).value;
    hide Run, Identity;
    if o < p < |s.origins| && s.calls[s.homes[o]] == s.calls[s.homes[p]]
       && s.origins[o].lifetime == s.origins[p].lifetime {
      IdentitiesDiffer(s.origins[o].scenario, s.origins[p].scenario);
    }
  }
}
