/** The events the provider simulator plays for one turn (openai-realtime-simulator.ts), how the server splits them into
  caller events and response events, and what a turn may put on the wire. */
module Scripts {
  import opened Options
  import Decimal
  import TwilioProtocol

  datatype Mode = Normal | Tool | Handoff | Incomplete | ProtocolError | RateLimit | OutputPressure | ProviderClose

  datatype Scenario = Scenario(
    fingerprint: string,
    fingerprintBytes: seq<TwilioProtocol.byte>,
    mode: Mode,
    responseSequence: Option<nat>,
    turnDetectionSilenceMs: Option<int>,
    toolName: Option<string>,
    handoffTargetAgentId: Option<string>)

  /** A session tool: its name and the first target of its `targetAgentId` enumeration, when those are strings. */
  datatype SessionTool = SessionTool(name: Option<string>, target: Option<string>)

  datatype Arguments = HandoffArguments(targetAgentId: string, reason: string) | QueryArguments(query: string)

  datatype Detail =
    | NoDetail
    | Milliseconds(at: nat)
    | Transcript(text: string)
    | Failure(errorType: string, code: string)
    | Status(status: string)
    | FunctionCall(status: string, callId: string, name: string, arguments: Arguments)
    | CutShort(status: string, reason: string)
    | AudioDelta(payload: seq<TwilioProtocol.byte>)
    | Fingerprint(fingerprint: string)

  datatype ServerEvent = ServerEvent(kind: string, itemId: Option<string>, responseId: Option<string>, detail: Detail)

  const AUDIO_BUFFER := "input_audio_buffer."
  const TRANSCRIPTION := "conversation.item.input_audio_transcription."
  const SPEECH_STARTED := AUDIO_BUFFER + "speech_started"
  const SPEECH_STOPPED := AUDIO_BUFFER + "speech_stopped"
  const COMMITTED := AUDIO_BUFFER + "committed"
  const TRANSCRIBED := TRANSCRIPTION + "completed"
  const RESPONSE_CREATED := "response.created"
  const RESPONSE_DONE := "response.done"
  const AUDIO_DELTA := "response.output_audio.delta"
  const AUDIO_DONE := "response.output_audio.done"
  const TRANSCRIPT_DONE := "response.output_audio_transcript.done"
  const ERROR := "error"
  const INVALID_EVENT := "simulator.invalid_event"
  const HANDOFF_TOOL := "zara_handoff_to_agent"

  function GetOr<T>(option: Option<T>, default: T): T {
    if option.Some? then option.value else default
  }

  function Identity(s: Scenario): string {
    s.fingerprint + "-" + Decimal.Print(GetOr(s.responseSequence, 1))
  }

  function BaseEvents(s: Scenario): (events: seq<ServerEvent>) {
    var item := Some("item-" + Identity(s));
    [ServerEvent(SPEECH_STARTED, item, None, Milliseconds(0)),
     ServerEvent(SPEECH_STOPPED, item, None, Milliseconds(400)),
     ServerEvent(COMMITTED, item, None, NoDetail),
     ServerEvent(TRANSCRIBED, item, None, Transcript("[simulated caller turn " + s.fingerprint + "]"))]
  }

  function Spoken(s: Scenario, response: Option<string>, item: Option<string>, deltas: nat): seq<ServerEvent> {
    var audio := AudioDelta(TwilioProtocol.ProviderPayload(s.fingerprintBytes));
    seq(deltas, _ => ServerEvent(AUDIO_DELTA, item, response, audio))
    + [ServerEvent(AUDIO_DONE, item, response, NoDetail),
       ServerEvent(TRANSCRIPT_DONE, None, response, Transcript("[simulated assistant turn " + s.fingerprint + "]")),
       ServerEvent(RESPONSE_DONE, None, response, Status("completed"))]
  }

  /** What follows the caller's own events. */
  function Answer(s: Scenario): seq<ServerEvent> {
    var response, assistant := Some("response-" + Identity(s)), Some("assistant-" + Identity(s));
    var created := ServerEvent(RESPONSE_CREATED, None, response, Status("in_progress"));
    match s.mode
    case ProviderClose => []
    case ProtocolError => [ServerEvent(INVALID_EVENT, None, None, Fingerprint(s.fingerprint))]
    case RateLimit => [ServerEvent(ERROR, None, None, Failure("rate_limit_error", "rate_limit_exceeded"))]
    case Tool =>
      [created, ServerEvent(RESPONSE_DONE, None, response,
         FunctionCall("completed", "call-" + Identity(s), GetOr(s.toolName, "zara_simulated_connector_tool"),
                      QueryArguments("simulated")))]
    case Handoff =>
      [created, ServerEvent(RESPONSE_DONE, None, response,
         FunctionCall("completed", "call-" + Identity(s), GetOr(s.toolName, HANDOFF_TOOL),
                      HandoffArguments(GetOr(s.handoffTargetAgentId, "agent-specialist"), "simulated_intent")))]
    case Incomplete => [created, ServerEvent(RESPONSE_DONE, None, response, CutShort("incomplete", "max_output_tokens"))]
    case OutputPressure => [created] + Spoken(s, response, assistant, 512)
    case Normal => [created] + Spoken(s, response, assistant, 30)
  }

  /** `createOpenAiRealtimeScenarioEvents`. */
  function Script(s: Scenario): seq<ServerEvent> {
    BaseEvents(s) + Answer(s)
  }

  predicate StartsWith(text: string, prefix: string) {
    |prefix| <= |text| && text[..|prefix|] == prefix
  }

  predicate IsCallerKind(kind: string) {
    StartsWith(kind, AUDIO_BUFFER) || StartsWith(kind, TRANSCRIPTION)
  }

  predicate OpensResponse(kind: string) {
    kind == RESPONSE_CREATED || kind == ERROR || kind == INVALID_EVENT
  }

  function CallerEvents(events: seq<ServerEvent>): seq<ServerEvent> {
    if events == [] then []
    else (if IsCallerKind(events[0].kind) then [events[0]] else []) + CallerEvents(events[1..])
  }

  /** Everything from the first event that opens a response, or nothing. */
  function ResponseEvents(events: seq<ServerEvent>): seq<ServerEvent> {
    if events == [] then []
    else if OpensResponse(events[0].kind) then events
    else ResponseEvents(events[1..])
  }

  function WithoutSpeechStarted(events: seq<ServerEvent>): seq<ServerEvent> {
    if events == [] then []
    else (if events[0].kind == SPEECH_STARTED then [] else [events[0]]) + WithoutSpeechStarted(events[1..])
  }

  function FindSpeechStarted(events: seq<ServerEvent>): Option<ServerEvent> {
    if events == [] then None
    else if events[0].kind == SPEECH_STARTED then Some(events[0])
    else FindSpeechStarted(events[1..])
  }

  function FindTool(tools: seq<SessionTool>, handoff: bool): Option<SessionTool> {
    if tools == [] then None
    else if tools[0].name.Some? && (handoff <==> tools[0].name.value == HANDOFF_TOOL) then Some(tools[0])
    else FindTool(tools[1..], handoff)
  }

  /** `resolveToolScenario`: a tool or handoff turn without a matching session tool is a normal turn. */
  function ResolveTool(tools: seq<SessionTool>, s: Scenario): Scenario {
    if !s.mode.Tool? && !s.mode.Handoff? then s
    else
      match FindTool(tools, s.mode.Handoff?)
      case None => s.(mode := Normal)
      case Some(tool) =>
        s.(toolName := tool.name,
           handoffTargetAgentId := if tool.target.Some? then tool.target else s.handoffTargetAgentId)
  }

  // ---------------------------------------------------------------- the split loses nothing

  lemma {:induction false} CallerEventsAppend(a: seq<ServerEvent>, b: seq<ServerEvent>)
    ensures CallerEvents(a + b) == CallerEvents(a) + CallerEvents(b)
  {
    if a == [] {
      assert a + b == b;
    } else {
      CallerEventsAppend(a[1..], b);
      assert (a + b)[1..] == a[1..] + b;
    }
  }

  lemma {:induction false} NoCallerEvents(events: seq<ServerEvent>)
    requires forall k :: 0 <= k < |events| ==> !IsCallerKind(events[k].kind)
    ensures CallerEvents(events) == []
  {
    if events != [] {
      NoCallerEvents(events[1..]);
    }
  }

  lemma KindFacts()
    ensures IsCallerKind(SPEECH_STARTED) && IsCallerKind(SPEECH_STOPPED) && IsCallerKind(COMMITTED)
    ensures IsCallerKind(TRANSCRIBED)
    ensures !OpensResponse(SPEECH_STARTED) && !OpensResponse(SPEECH_STOPPED) && !OpensResponse(COMMITTED)
    ensures !OpensResponse(TRANSCRIBED)
    ensures SPEECH_STARTED != SPEECH_STOPPED && SPEECH_STARTED != COMMITTED && SPEECH_STARTED != TRANSCRIBED
  {
  }

  lemma StartsWithHead(text: string, prefix: string)
    requires prefix != [] && StartsWith(text, prefix)
    ensures text[0] == prefix[0]
  {
  }

  lemma ResponseKindsAreNotCallerKinds(kind: string)
    requires kind != [] && kind[0] != 'i' && kind[0] != 'c'
    ensures !IsCallerKind(kind)
  {
    assert TRANSCRIPTION[0] == 'c';
    if StartsWith(kind, AUDIO_BUFFER) {
      StartsWithHead(kind, AUDIO_BUFFER);
    }
    if StartsWith(kind, TRANSCRIPTION) {
      StartsWithHead(kind, TRANSCRIPTION);
    }
  }

  lemma AnswerKinds(s: Scenario)
    ensures forall k :: 0 <= k < |Answer(s)| ==>
      Answer(s)[k].kind != [] && Answer(s)[k].kind[0] != 'i' && Answer(s)[k].kind[0] != 'c'
    ensures Answer(s) != [] ==> OpensResponse(Answer(s)[0].kind)
  {
  }

  lemma AnswerHasNoCallerEvents(s: Scenario)
    ensures CallerEvents(Answer(s)) == []
    ensures Answer(s) != [] ==> OpensResponse(Answer(s)[0].kind)
  {
    AnswerKinds(s);
    hide Answer;
    forall k | 0 <= k < |Answer(s)| ensures !IsCallerKind(Answer(s)[k].kind) {
      ResponseKindsAreNotCallerKinds(Answer(s)[k].kind);
    }
    NoCallerEvents(Answer(s));
  }

  lemma {:induction false} OnlyCallerEvents(events: seq<ServerEvent>)
    requires forall k :: 0 <= k < |events| ==> IsCallerKind(events[k].kind)
    ensures CallerEvents(events) == events
  {
    if events != [] {
      OnlyCallerEvents(events[1..]);
    }
  }

  lemma {:induction false} NoSpeechStarted(events: seq<ServerEvent>)
    requires forall k :: 0 <= k < |events| ==> events[k].kind != SPEECH_STARTED
    ensures WithoutSpeechStarted(events) == events
  {
    if events != [] {
      NoSpeechStarted(events[1..]);
    }
  }

  lemma {:induction false} ResponseStartsLater(before: seq<ServerEvent>, after: seq<ServerEvent>)
    requires forall k :: 0 <= k < |before| ==> !OpensResponse(before[k].kind)
    ensures ResponseEvents(before + after) == ResponseEvents(after)
  {
    if before == [] {
      assert before + after == after;
    } else {
      assert (before + after)[1..] == before[1..] + after;
      ResponseStartsLater(before[1..], after);
    }
  }

  lemma BaseKinds(s: Scenario)
    ensures var base := BaseEvents(s);
      && |base| == 4 && base[0].kind == SPEECH_STARTED
      && (forall k :: 0 <= k < |base| ==> IsCallerKind(base[k].kind) && !OpensResponse(base[k].kind))
      && (forall k :: 0 < k < |base| ==> base[k].kind != SPEECH_STARTED)
  {
    KindFacts();
    hide IsCallerKind, OpensResponse, Identity;
  }

  lemma BaseIsAllCaller(s: Scenario)
    ensures CallerEvents(BaseEvents(s)) == BaseEvents(s)
    ensures WithoutSpeechStarted(BaseEvents(s)) == BaseEvents(s)[1..]
    ensures FindSpeechStarted(BaseEvents(s)) == Some(BaseEvents(s)[0])
    ensures ResponseEvents(BaseEvents(s) + Answer(s)) == ResponseEvents(Answer(s))
  {
    var base := BaseEvents(s);
    BaseKinds(s);
    hide BaseEvents, Answer, IsCallerKind, OpensResponse;
    OnlyCallerEvents(base);
    NoSpeechStarted(base[1..]);
    ResponseStartsLater(base, Answer(s));
  }

  /** In every mode the server's two filters cut the script in two and lose nothing. */
  lemma ScriptSplits(s: Scenario)
    ensures CallerEvents(Script(s)) == BaseEvents(s)
    ensures ResponseEvents(Script(s)) == Answer(s)
    ensures CallerEvents(Script(s)) + ResponseEvents(Script(s)) == Script(s)
    ensures FindSpeechStarted(CallerEvents(Script(s))) == Some(Script(s)[0])
    ensures [Script(s)[0]] + WithoutSpeechStarted(CallerEvents(Script(s))) == BaseEvents(s)
  {
    CallerEventsAppend(BaseEvents(s), Answer(s));
    AnswerHasNoCallerEvents(s);
    BaseIsAllCaller(s);
  }

  // ---------------------------------------------------------------- the wire

  /** A frame as the server writes it: an event, or the deliberately broken frame. */
  datatype Wire = Json(event: ServerEvent) | InvalidJson

  function AsJson(events: seq<ServerEvent>): (r: seq<Wire>)
    ensures |r| == |events|
  {
    seq(|events|, k requires 0 <= k < |events| => Json(events[k]))
  }

  /** What a turn's task still has to send after the caller's events. */
  function Tail(s: Scenario): seq<Wire> {
    match s.mode
    case ProviderClose => []
    case ProtocolError => [InvalidJson]
    case _ => AsJson(ResponseEvents(Script(s)))
  }

  /** What an uninterrupted turn sends: the script, with the last event broken in protocol-error mode. */
  function TurnPlan(s: Scenario): seq<Wire> {
    if s.mode.ProtocolError? then AsJson(Script(s)[..|Script(s)| - 1]) + [InvalidJson] else AsJson(Script(s))
  }

  function GreetingPlan(s: Scenario): seq<Wire> {
    AsJson(ResponseEvents(Script(s)))
  }

  lemma TurnPlanSplits(s: Scenario)
    ensures TurnPlan(s) ==
      [Json(Script(s)[0])] + AsJson(WithoutSpeechStarted(CallerEvents(Script(s)))) + Tail(s)
  {
    ScriptSplits(s);
    var base := [Script(s)[0]] + WithoutSpeechStarted(CallerEvents(Script(s)));
    assert AsJson(base) == [Json(Script(s)[0])] + AsJson(WithoutSpeechStarted(CallerEvents(Script(s))));
    if s.mode.ProtocolError? {
      assert Script(s)[..|Script(s)| - 1] == base;
    } else {
      assert Script(s) == base + Answer(s);
    }
  }

  /** Response and item ids name one fingerprint and one sequence number. */
  lemma IdentitiesDiffer(a: Scenario, b: Scenario)
    requires a.responseSequence.Some? && b.responseSequence.Some? && a.responseSequence != b.responseSequence
    ensures Identity(a) != Identity(b)
    ensures "response-" + Identity(a) != "response-" + Identity(b)
    ensures "item-" + Identity(a) != "item-" + Identity(b)
    ensures "assistant-" + Identity(a) != "assistant-" + Identity(b)
  {
    if Identity(a) == Identity(b) {
      Decimal.DashedInjective(a.fingerprint, a.responseSequence.value, b.fingerprint, b.responseSequence.value);
    }
    PrefixCancels("response-", Identity(a), Identity(b));
    PrefixCancels("item-", Identity(a), Identity(b));
    PrefixCancels("assistant-", Identity(a), Identity(b));
  }

  lemma PrefixCancels(prefix: string, a: string, b: string)
    requires a != b
    ensures prefix + a != prefix + b
  {
    assert (prefix + a)[|prefix|..] == a && (prefix + b)[|prefix|..] == b;
  }
}
