# PSTN protocol simulator and workflow builder: a verified model

This project models, in Dafny 4.11, the protocol simulator that exercises Zara's telephone path, and the part of the
workflow builder that edits the call graph. It proves what they keep over every run.

- **The virtual caller** (`PlaybackModel`, `PlaybackQueue`, `PlaybackInvariants`, `PlaybackTheorems`, `CallerWire`,
  `CallerSession`, `StreamTokens`, `Quiescence`, `DuplicateRace`). A queue of media and marks is drained by an
  asynchronous loop that restarts itself, while `clear`, `cancel` and new messages arrive at any `await`. A media sender
  shares the socket and its sequence counter with the queue's acknowledgements.
- **The provider simulator** (`Scripts`, `RealtimeModel`, `RealtimeForm`, `RealtimeTimers`, `RealtimeTurns`,
  `RealtimeTrace`, `RealtimeResults`, `RealtimeOrder`, `RealtimeAccounts`, `RealtimeSupersession`, `RealtimeSpeech`,
  `RealtimeWitness`, `RealtimeServer`). Many sockets of many calls, each with a message handler, a silence timer and an
  abortable response task, and per-call generations, sequence numbers, connection counts and active tasks.
- **The load runner** (`LoadTypes`, `PoolModel`, `PoolTheorems`, `StagePool`, `Failures`, `Analysis`, `LoadRunner`,
  `LoadDriver`, `Profiles`). Workers and a telemetry monitor share a call counter, a launch clock and an abort flag; then
  come the analysis, the aggregation of failures and the verdict.
- **Layouts and scanners** (`TwilioProtocol`, `TwimlScanner`, `WebhookSignature`, `Decimal`).
- **The canvas** (`BuilderIds`, `Canvas`, `CanvasIntegrity`, `CanvasEditor`).

The concurrent parts are state machines: the code between two `await`s is one atomic step, the scheduler is arbitrary,
and a history records what was received, sent, started and acknowledged. Each is written a second time as a class whose
methods update the source's fields in place; every method is proved to take the object exactly where the step function
takes the state, so the theorems about runs of steps hold of the objects. The theorems quantify over all runs.

Assumptions, stated where they enter: a sleep lasts at least as long as asked; base64 decoding undoes encoding
(section 4 of RFC 4648); UTF-8 text holds no byte 0xFF (section 3 of RFC 3629); a message is handled only while its
socket's close event has not fired; the workflow policy is an arbitrary function of the canvas and the request, and
`deleteWorkflowNode` removes exactly the given node.

Some properties that one might expect do not hold of the code. Each comes with a run or document that shows it and
with the exact condition:

- A mark active during two clears is acknowledged twice, because `clear` does not reset the active mark. The
  acknowledgements are in order, each once, exactly when no mark is cleared twice.
- A new turn does not stop a greeting whose events are still being made: the greeting joins the newer generation and
  answers after the turn. It is the only earlier origin that does.
- Caller events and the broken frame of protocol-error mode carry no generation, so an overtaken turn on another socket
  may still send them. Which steps do, and which origins still can, is stated exactly. On the socket the audio came in
  on, nothing of the sort follows.
- A TwiML document may nest a Connect or Stream in itself without harm. The scanner loses items exactly when a Stream that
  counts follows the end of an inner Connect, or a Parameter that counts the end of an inner Stream.

The classes' methods without a row below are the source's handlers field by field, each proved to be the step of the
state machine that it stands for.

## Model

| member | source | states |
|---|---|---|
| PlaybackTheorems.NoLostWakeUp | apps/pstn-protocol-simulator/src/twilio-virtual-caller.ts:651-727 | in every run a non-empty queue has a drain running or its `finally` restart pending, and at most one drain exists |
| PlaybackTheorems.IdleMeansFinished | apps/pstn-protocol-simulator/src/twilio-virtual-caller.ts:675-677 | when no drain promise is held nothing is queued and nothing is being played: `waitUntilIdle` does not return early |
| PlaybackTheorems.DrainStepWorks | apps/pstn-protocol-simulator/src/twilio-virtual-caller.ts:699-727 | every step of the drain loop lowers the work that is left, also when it throws on an empty payload |
| PlaybackTheorems.DrainReachesIdle | apps/pstn-protocol-simulator/src/twilio-virtual-caller.ts:675-727 | from every reachable state the drain's own steps lead to idle in at most that much work |
| PlaybackTheorems.MediaConserved | apps/pstn-protocol-simulator/src/twilio-virtual-caller.ts:660-727 | media received = counted + dropped by `clear` + dropped by `cancel` + rejected as empty + queued + in flight |
| PlaybackTheorems.PlayedExactlyWhenUntouched | apps/pstn-protocol-simulator/src/twilio-virtual-caller.ts:688-727 | an item is played exactly when its wait ended with no `clear` and no `cancel` since it arrived |
| PlaybackTheorems.FingerprintFlagIsExact | apps/pstn-protocol-simulator/src/twilio-virtual-caller.ts:716-719 | the fingerprint flag is up exactly when every counted frame carries the provider fingerprint |
| PlaybackTheorems.AcknowledgedExactly | apps/pstn-protocol-simulator/src/twilio-virtual-caller.ts:688-733 | a mark with a name of its own is acknowledged once for each `clear` that found it waiting, or once at the end of its latency when none did |
| PlaybackTheorems.DoubleAcknowledgementExactly | apps/pstn-protocol-simulator/src/twilio-virtual-caller.ts:688-733 | some name is acknowledged twice exactly when a second `clear` found its mark still waiting out its latency |
| PlaybackTheorems.AcknowledgedInOrder | apps/pstn-protocol-simulator/src/twilio-virtual-caller.ts:688-733 | the acknowledgements are received marks in arrival order, each once, exactly when no mark was cleared twice - whatever happens to media; they then reach up to the marks still waiting, and after a cancel are a prefix |
| PlaybackTheorems.IdleMeansAllAcknowledged | apps/pstn-protocol-simulator/src/twilio-virtual-caller.ts:675-733 | an idle, uncancelled queue has acknowledged every mark it received, each once, in order, exactly when no mark was cleared twice |
| PlaybackTheorems.LosingMarksAcknowledgesNone | apps/pstn-protocol-simulator/src/twilio-virtual-caller.ts:694-697 | with `loseMarks` no mark is ever acknowledged |
| PlaybackTheorems.TwoClearsAcknowledgeTwice | apps/pstn-protocol-simulator/src/twilio-virtual-caller.ts:688-725 | the run with two clears during one mark's latency: that mark is acknowledged twice |
| PlaybackInvariants.RunFaithful | apps/pstn-protocol-simulator/src/twilio-virtual-caller.ts:632-741 | in every run the counters and acknowledgements are those that the history of arrivals, waits, clears and cancels determines, and the queue, loop and active mark agree with it |
| PlaybackQueue.TwilioPlaybackQueue.Receive | apps/pstn-protocol-simulator/src/twilio-virtual-caller.ts:651-673 | one incoming message takes the queue exactly where the step function does, with the value returned or the error thrown |
| PlaybackQueue.TwilioPlaybackQueue.ClearQueue | apps/pstn-protocol-simulator/src/twilio-virtual-caller.ts:688-697 | `clear` drops the queue and acknowledges the active and queued marks, each name once, active first, unless marks are lost |
| PlaybackQueue.TwilioPlaybackQueue.DrainFromHead | apps/pstn-protocol-simulator/src/twilio-virtual-caller.ts:707-722 | the loop from its head to its next wait, its end, or its error |
| PlaybackQueue.TwilioPlaybackQueue.ResumeDrain | apps/pstn-protocol-simulator/src/twilio-virtual-caller.ts:713-726 | the loop after a wait: counted, acknowledged, skipped or stopped, then on to the next item |
| PlaybackQueue.TwilioPlaybackQueue.FinishDrain | apps/pstn-protocol-simulator/src/twilio-virtual-caller.ts:701-704 | the `finally` callback: the promise goes, and a non-empty queue starts a new drain |
| CallerWire.WireNumbersAreConsecutive | apps/pstn-protocol-simulator/src/twilio-virtual-caller.ts:192-348 | after `connected`, everything on the owner's socket - start, media, mark acknowledgements, stop - is numbered 1, 2, 3, ... however sender, drain, socket errors and aborts interleave |
| CallerWire.MediaFollowsThePlan | apps/pstn-protocol-simulator/src/twilio-virtual-caller.ts:286-322 | media chunks are 1..n with the planned timestamps, at least 20 ms apart, in every interleaving |
| CallerWire.PlannedClosedForm | apps/pstn-protocol-simulator/src/twilio-virtual-caller.ts:286-322 | the k-th planned timestamp is 20 ms a frame plus all the silence before its turn |
| CallerWire.PlannedIncreases | apps/pstn-protocol-simulator/src/twilio-virtual-caller.ts:286-322 | planned timestamps grow by at least 20 ms across turns |
| CallerWire.MarksOnTheWire | apps/pstn-protocol-simulator/src/twilio-virtual-caller.ts:206-222 | the mark frames on the wire are exactly the queue's acknowledgements, in order |
| CallerSession.TwilioCallSession.SendAcknowledgements | apps/pstn-protocol-simulator/src/twilio-virtual-caller.ts:206-222 | the acknowledgements of one queue step go out in order, each with the next number |
| CallerSession.TwilioCallSession.ReceiveProviderMessage | apps/pstn-protocol-simulator/src/twilio-virtual-caller.ts:223-231 | a provider message moves the queue and sends its acknowledgements, or leaves a lifecycle error |
| CallerSession.TwilioCallSession.ResumeMediaSender | apps/pstn-protocol-simulator/src/twilio-virtual-caller.ts:281-348 | one step of the sender: an abort or an error ends it, otherwise the next frame, the pause after a turn, the end of the wait for quiet, the stop message, or the end; a silent caller sends no media |
| StreamTokens.StreamTokenMemory.Admit | apps/pstn-protocol-simulator/src/twilio-virtual-caller.ts:121-125 | a stream token hash is refused exactly when it is among the last 10,000 accepted |
| StreamTokens.StreamTokenMemory.Remember | apps/pstn-protocol-simulator/src/twilio-virtual-caller.ts:394-401 | the set and the order list stay the same 10,000 most recent hashes, without repeats |
| Quiescence.WaitForProviderQuiescence | apps/pstn-protocol-simulator/src/twilio-virtual-caller.ts:362-392 | the wait returns or throws at the first of 250 looks that shows an abort, an error or a settled call, and times out only when none does |
| Quiescence.QuietMeansNoNews | apps/pstn-protocol-simulator/src/twilio-virtual-caller.ts:377-389 | a call that ends by quiet had received something, and nothing new for the whole quiet time |
| DuplicateRace.HandoverLosesNothing | apps/pstn-protocol-simulator/src/twilio-virtual-caller.ts:158-245 | once handed over, the playback queue has been given everything the owner's socket ever delivered, once and in order, and nothing else |
| DuplicateRace.OneOwnerOneRefusal | apps/pstn-protocol-simulator/src/twilio-virtual-caller.ts:509-529 | a stream with an owner was claimed by both sockets, and the other socket was refused with 4409 and never delivered anything |
| DuplicateRace.MediaRace.Decide | apps/pstn-protocol-simulator/src/twilio-virtual-caller.ts:517-529 | the race is won only by the other socket of one refused with 4409 that delivered nothing |
| DuplicateRace.MediaRace.TakeOwnership | apps/pstn-protocol-simulator/src/twilio-virtual-caller.ts:158-245 | buffering stops and the buffered messages are played in order |
| TwilioProtocol.CreateTwilioMediaFrames | apps/pstn-protocol-simulator/src/twilio-protocol.ts:106-123 | one frame per started 20 ms, numbered from 1, 20 ms apart, each carrying the fingerprint and its index |
| TwilioProtocol.BuildFramePayload | apps/pstn-protocol-simulator/src/twilio-protocol.ts:114-117 | the buffer written in place is 0xff filler, overwritten by at most 160 fingerprint bytes, overwritten by the index |
| TwilioProtocol.CreateProviderAudioFingerprint | apps/pstn-protocol-simulator/src/openai-realtime-simulator.ts:141-145 | the buffer written in place is 160 bytes of 0xff with at most 120 fingerprint bytes in front |
| TwilioProtocol.FrameVerifiesExactly | apps/pstn-protocol-simulator/src/twilio-protocol.ts:106-130 | a generated frame verifies exactly when the fingerprint survives in front of the index |
| TwilioProtocol.ShortFingerprintsVerify | apps/pstn-protocol-simulator/src/twilio-protocol.ts:106-130 | fingerprints of up to 156 bytes pass in every frame |
| TwilioProtocol.FramesIsolateCalls | apps/pstn-protocol-simulator/src/twilio-protocol.ts:106-130 | frames of one short fingerprint never verify against another of the same length |
| TwilioProtocol.FrameIndexRecovered | apps/pstn-protocol-simulator/src/twilio-protocol.ts:117-117 | the last four bytes give the frame index back, for every index below 2^32 |
| TwilioProtocol.UInt32RoundTrip | apps/pstn-protocol-simulator/src/twilio-protocol.ts:117-117 | big-endian writing and reading of 32 bits are inverse |
| TwilioProtocol.ProviderPayloadVerifiesExactly | apps/pstn-protocol-simulator/src/openai-realtime-simulator.ts:141-145 | the provider payload verifies exactly when the fingerprint is at most 120 bytes long |
| WebhookSignature.PayloadIgnoresOrder | apps/pstn-protocol-simulator/src/twilio-protocol.ts:10-20 | the signed text is the same for the same parameters listed in any order |
| WebhookSignature.AscendingIsUnique | apps/pstn-protocol-simulator/src/twilio-protocol.ts:15-17 | sorting by key leaves no freedom: ascending lists of the same entries are equal |
| TwimlScanner.FlagsFollowTheStack | apps/pstn-protocol-simulator/src/twilio-protocol.ts:33-65 | at every point of a nested document, `insideStream` - the condition for accepting a Parameter - means a Stream is open below an open Connect |
| TwimlScanner.DocumentsAreNested | apps/pstn-protocol-simulator/src/twilio-protocol.ts:43-72 | the tag sequence of a document is properly nested and leaves nothing open |
| TwimlScanner.ScannerRefinesTree | apps/pstn-protocol-simulator/src/twilio-protocol.ts:33-65 | the scanner accepts exactly the tree's streams and parameters, in order, if and only if no counted Stream follows the end of an inner Connect and no counted Parameter the end of an inner Stream before the next opening one |
| TwimlScanner.FlatDocumentsLoseNothing | apps/pstn-protocol-simulator/src/twilio-protocol.ts:33-65 | when neither Connect nor Stream nests in itself, nothing is lost |
| TwimlScanner.FlagsAfter | apps/pstn-protocol-simulator/src/twilio-protocol.ts:67-70 | after any element of its kind has ended a flag is down, and otherwise it is what it was |
| TwimlScanner.ScannerAcceptsOnlyTree | apps/pstn-protocol-simulator/src/twilio-protocol.ts:33-65 | on every document, what the scanner accepts is in order part of what the tree says |
| TwimlScanner.NestedConnectLosesStream | apps/pstn-protocol-simulator/src/twilio-protocol.ts:44-47 | a document with a Connect inside a Connect whose stream the scanner misses |
| TwimlScanner.NestedStreamLosesParameter | apps/pstn-protocol-simulator/src/twilio-protocol.ts:48-52 | a document with a Stream inside a Stream whose parameter the scanner misses |
| TwimlScanner.ParseConnectStreamTwiML | apps/pstn-protocol-simulator/src/twilio-protocol.ts:22-100 | the parser's result is the conclusion from the last accepted values: invalid XML, missing parameters, a bad URL, or the accepted record |
| TwimlScanner.ParserRefinesTree | apps/pstn-protocol-simulator/src/twilio-protocol.ts:22-100 | for every document on which nothing is lost the result is what the element tree determines |
| Scripts.ScriptSplits | apps/pstn-protocol-simulator/src/openai-realtime-server.ts:360-370 | in every mode the server's two filters cut the script in two: caller events ++ response events == events |
| Scripts.TurnPlanSplits | apps/pstn-protocol-simulator/src/openai-realtime-server.ts:244-268 | speech_started, the other caller events and the mode's tail are together the turn's script, with the last event broken in protocol-error mode |
| Scripts.IdentitiesDiffer | apps/pstn-protocol-simulator/src/openai-realtime-simulator.ts:29-34 | scenarios with different sequence numbers share no response, item or assistant id |
| RealtimeForm.StepFormed | apps/pstn-protocol-simulator/src/openai-realtime-server.ts:72-328 | after every step each number a socket, task or origin holds names something of the right socket |
| RealtimeTimers.OneLiveTimer | apps/pstn-protocol-simulator/src/openai-realtime-server.ts:200-242 | a socket has at most one live silence timer; while it is open and the server runs it has one exactly when a turn is pending, and that timer belongs to that turn |
| RealtimeTimers.OneLiveResponse | apps/pstn-protocol-simulator/src/openai-realtime-server.ts:303-315 | a socket has at most one live response task, the one its controller aborts: an old `finally` never removes a newer controller |
| RealtimeTimers.ResponseOnlyAfterSilence | apps/pstn-protocol-simulator/src/openai-realtime-server.ts:233-244 | a turn's response is scheduled only by its timer, after its full silence with no audio processed on that socket |
| RealtimeResults.TurnTraceIsPrefix | apps/pstn-protocol-simulator/src/openai-realtime-server.ts:200-301 | in every run the frames sent for a turn or greeting are in order a prefix of its script, and the whole script when it is over complete |
| RealtimeResults.OnlyHindrancesCutShort | apps/pstn-protocol-simulator/src/openai-realtime-server.ts:244-301 | a task ends incomplete only if it was aborted, its socket stopped being writable, or its generation passed |
| RealtimeResults.OnlyTheseAbort | apps/pstn-protocol-simulator/src/openai-realtime-server.ts:104-127 | a live response is aborted only by the close of its socket, by stop, by the first audio of a new turn on its socket, or by a newer response there |
| RealtimeResults.TaskWorks | apps/pstn-protocol-simulator/src/openai-realtime-server.ts:287-301 | every resumption of a response task brings it closer to its end |
| RealtimeResults.UnhinderedCompletes | apps/pstn-protocol-simulator/src/openai-realtime-server.ts:244-301 | an unhindered task, left to run, ends having sent its whole script, from any sound state |
| RealtimeTurns.RunTurns | apps/pstn-protocol-simulator/src/openai-realtime-server.ts:142-301 | in every run each origin's record agrees with where its events come from next, and nobody else holds it |
| RealtimeTrace.StepTrace | apps/pstn-protocol-simulator/src/openai-realtime-server.ts:200-301 | a step adds to the outbound trace at most one frame of one origin, and a response event carries its origin's generation, which is the call's current one |
| RealtimeOrder.GenerationsNeverGoBack | apps/pstn-protocol-simulator/src/openai-realtime-server.ts:213-230 | within one life of a call the generations of turns and response events never decrease in the trace, and a turn is strictly ahead of what came before |
| RealtimeOrder.IdsAreDistinct | apps/pstn-protocol-simulator/src/openai-realtime-server.ts:324-328 | two origins of one life of a call have different sequence numbers, in order, and no id in common |
| RealtimeSupersession.RunDated | apps/pstn-protocol-simulator/src/openai-realtime-server.ts:51-61 | in every run no settled origin of a call's current life is ahead of the call's generation, and origins of earlier lives sit on sockets that are not writable |
| RealtimeSupersession.TakeoverSupersedes | apps/pstn-protocol-simulator/src/openai-realtime-server.ts:213-215 | audio that starts a turn supersedes every earlier turn and greeting of that life of the call, on every socket, exactly except greetings whose events are still being made |
| RealtimeSupersession.TakeoverSilences | apps/pstn-protocol-simulator/src/openai-realtime-server.ts:165-301 | after audio that starts a turn no earlier turn or greeting of the call sends a response event in any continuation, releases included, unless it is a greeting still being made on an open socket |
| RealtimeSupersession.EarlierOriginAnswersExactly | apps/pstn-protocol-simulator/src/openai-realtime-server.ts:165-301 | an earlier turn or greeting has a continuation in which it still sends a response event if and only if it is a greeting still being made on an open socket |
| RealtimeSupersession.GreetingOvertakes | apps/pstn-protocol-simulator/src/openai-realtime-server.ts:165-176 | such a greeting joins the newer generation and, left to itself, sends its whole script after the turn has started |
| RealtimeSupersession.StepSpeaksExactly | apps/pstn-protocol-simulator/src/openai-realtime-server.ts:220-301 | a step puts a frame of an origin on the wire if and only if its socket is writable and the step is its own and reaches the announced speech, a caller event, the broken frame, or a response event of the current generation |
| RealtimeSupersession.OvertakenSpeaksExactly | apps/pstn-protocol-simulator/src/openai-realtime-server.ts:220-301 | for a superseded origin exactly the unguarded frames remain: the announced speech, a caller event of an unaborted task, the broken frame of an unaborted task in protocol-error mode |
| RealtimeSupersession.TakeoverMutesItsSocket | apps/pstn-protocol-simulator/src/openai-realtime-server.ts:205-230 | on its own socket the audio silences earlier turns and greetings altogether, the broken frame included, in every continuation |
| RealtimeSpeech.SpeaksAgainExactly | apps/pstn-protocol-simulator/src/openai-realtime-server.ts:200-301 | in every reachable state any turn or greeting has a continuation in which it puts another frame on the wire if and only if its socket is writable and it waits, or its live task has a caller event, the broken frame, or a current response event left |
| RealtimeSpeech.EarlierOriginSpeaksExactly | apps/pstn-protocol-simulator/src/openai-realtime-server.ts:200-301 | after audio that takes the call over, an earlier turn or greeting has a continuation in which it still sends any frame if and only if, before the audio, it was on another, writable socket and waiting, or in a live task with caller events or the broken frame ahead |
| RealtimeSpeech.SpentForever | apps/pstn-protocol-simulator/src/openai-realtime-server.ts:200-301 | an origin that has nothing left to say never sends a frame again, whatever happens |
| RealtimeSpeech.RunServed | apps/pstn-protocol-simulator/src/openai-realtime-server.ts:121-128 | in every run a writable socket belongs to a running server |
| RealtimeSupersession.RunHeld | apps/pstn-protocol-simulator/src/openai-realtime-server.ts:165-231 | in every run an origin waiting in a handler or as a pending turn is the one its own socket holds |
| RealtimeSupersession.StepForward | apps/pstn-protocol-simulator/src/openai-realtime-server.ts:104-315 | no step takes back an abort, makes a socket writable again, or moves an origin backwards |
| RealtimeWitness.BrokenFrameIgnoresGeneration | apps/pstn-protocol-simulator/src/openai-realtime-server.ts:254-258 | a run in which an overtaken turn on another socket still sends the broken frame |
| RealtimeWitness.GreetingAnswersAfterTakeover | apps/pstn-protocol-simulator/src/openai-realtime-server.ts:165-176 | a run in which a greeting requested before the audio of a new turn sends response events after it |
| RealtimeAccounts.ConnectionCountIsExact | apps/pstn-protocol-simulator/src/openai-realtime-server.ts:91-110 | the connection count is the number of open sockets of the call, their scenario is still there, and the floor of zero is never met |
| RealtimeAccounts.ReleaseExactlyWhenQuiet | apps/pstn-protocol-simulator/src/openai-realtime-server.ts:51-61 | a call can be released exactly when it has no open socket and no task left in the active tasks |
| RealtimeServer.OpenAiRealtimeProtocolSimulator.HandleMessage | apps/pstn-protocol-simulator/src/openai-realtime-server.ts:142-180 | a message is refused, updates the tools, starts a greeting, or is caller audio |
| RealtimeServer.OpenAiRealtimeProtocolSimulator.ReceiveCallerAudio | apps/pstn-protocol-simulator/src/openai-realtime-server.ts:200-231 | audio restarts the pending turn's timer, or opens a turn |
| RealtimeServer.OpenAiRealtimeProtocolSimulator.WakeTimer | apps/pstn-protocol-simulator/src/openai-realtime-server.ts:236-245 | a timer completes its own pending turn once, and otherwise settles |
| RealtimeServer.OpenAiRealtimeProtocolSimulator.ChooseMode | apps/pstn-protocol-simulator/src/openai-realtime-server.ts:248-268 | after the caller events: close, the broken frame, or the response events |
| RealtimeServer.OpenAiRealtimeProtocolSimulator.SendNextResponseEvent | apps/pstn-protocol-simulator/src/openai-realtime-server.ts:287-301 | the next response event, only while not aborted and of the current generation |
| RealtimeServer.OpenAiRealtimeProtocolSimulator.ScheduleResponseTask | apps/pstn-protocol-simulator/src/openai-realtime-server.ts:303-315 | the old controller is aborted and a new controller and tracked task replace it |
| RealtimeServer.OpenAiRealtimeProtocolSimulator.Stop | apps/pstn-protocol-simulator/src/openai-realtime-server.ts:121-128 | every open connection loses its response and timer and starts to close |
| PoolTheorems.IndicesAreHandedOutOnce | apps/pstn-protocol-simulator/src/load-runner.ts:285-378 | in every interleaving the active-call count is the calls in flight, at most the concurrency, and every index below the counter - no other - is with one worker, in one result, or dropped |
| PoolTheorems.NothingStartsAfterAbort | apps/pstn-protocol-simulator/src/load-runner.ts:335-339 | once a stage is aborted, no index is handed out and no call starts in any continuation |
| PoolTheorems.StoppingLeavesFailure | apps/pstn-protocol-simulator/src/load-runner.ts:296-324 | abort and stopProfile go together, and whoever sets them leaves a failure |
| PoolTheorems.CallCountIsExact | apps/pstn-protocol-simulator/src/load-runner.ts:335-378 | with a call count, a worker, no deadline and no abort, a pool whose workers returned has exactly one result per index below the count |
| PoolTheorems.WorkerStepsEnd | apps/pstn-protocol-simulator/src/load-runner.ts:335-371 | every worker step uses up work of a counted stage and no other step makes any, so the workers make finitely many steps |
| PoolTheorems.PoolCanFinish | apps/pstn-protocol-simulator/src/load-runner.ts:325-378 | from every reachable state of a stage with a call count or a deadline some continuation ends the pool - workers returned, monitor ended - with no more worker steps than the work left |
| PoolTheorems.CallsWaitForTheirSlot | apps/pstn-protocol-simulator/src/load-runner.ts:281-295 | call k never starts before startedAt + k * interval |
| PoolTheorems.PacingBound | apps/pstn-protocol-simulator/src/load-runner.ts:281-295 | by every time t of every run at most floor((t - startedAt) / interval) + 1 calls have started, whatever the concurrency |
| PoolTheorems.RunKeeps | apps/pstn-protocol-simulator/src/load-runner.ts:263-378 | the whole pool invariant in every run: indices, flags, counts, pacing, and results labelled by their index |
| StagePool.StagePool.WorkerTakes | apps/pstn-protocol-simulator/src/load-runner.ts:336-339 | taking an index and its launch slot is one step |
| StagePool.StagePool.WorkerLaunches | apps/pstn-protocol-simulator/src/load-runner.ts:340-346 | after the sleep the call starts, or the worker returns if the stage was aborted or out of time |
| StagePool.StagePool.WorkerFinishes | apps/pstn-protocol-simulator/src/load-runner.ts:347-370 | the result is recorded, the active count lowered, and an aborted stage ends the worker |
| StagePool.StagePool.ObserveTelemetry | apps/pstn-protocol-simulator/src/load-runner.ts:296-324 | a failed, incomplete or exhausted reading stops the stage with its failure, once; a good one raises the maxima |
| Failures.AggregateFailures | apps/pstn-protocol-simulator/src/load-runner.ts:620-629 | the loop over shared mutable summaries returns fresh copies with the aggregate's values and leaves every input as it was |
| Failures.AggregateConserves | apps/pstn-protocol-simulator/src/load-runner.ts:620-629 | aggregation keeps the total of every stage and code and leaves each key once |
| Failures.AggregateIsIdempotent | apps/pstn-protocol-simulator/src/load-runner.ts:419-419 | aggregating an aggregate changes nothing, and adding to it equals adding to what it was made of: stage and run reports agree |
| Failures.AggregateInFirstSeenOrder | apps/pstn-protocol-simulator/src/load-runner.ts:620-629 | an aggregate lists its keys in the order they were first seen |
| Failures.KeysNameStageAndCode | apps/pstn-protocol-simulator/src/load-runner.ts:623-623 | two failures share a key exactly when they share code and stage, where no stage and the empty name are one |
| Failures.KnownCodesAreKept | apps/pstn-protocol-simulator/src/load-runner.ts:638-642 | every known failure code survives normalisation |
| Failures.NormalisedCodesAreNamed | apps/pstn-protocol-simulator/src/load-runner.ts:638-642 | a code other than call_failure comes only from its own name |
| Analysis.PercentileIsNearestRank | apps/pstn-protocol-simulator/src/load-runner.ts:602-614 | the percentile is a value of the list with at least that share at or below it and less than that share strictly below |
| Analysis.AnalyzeResults | apps/pstn-protocol-simulator/src/load-runner.ts:477-545 | the failure list built in place holds each failed check once, in order, and one entry per failed call |
| Analysis.NothingToReport | apps/pstn-protocol-simulator/src/load-runner.ts:486-524 | no failure is reported exactly when all scenarios were exercised, some call had media, identities held, no call failed and the objectives hold |
| Analysis.CleanStageSucceeds | apps/pstn-protocol-simulator/src/load-runner.ts:503-506 | with nothing to report all completed calls passed: the success rate is 1, or no call completed; with a positive minimum it is 1 |
| LoadRunner.WaitForDrain | apps/pstn-protocol-simulator/src/load-runner.ts:428-441 | drained exactly when some attempt shows recovery and every read before it was usable |
| LoadRunner.Run | apps/pstn-protocol-simulator/src/load-runner.ts:217-261 | the loop over the stages with its breaks yields the report of the specification |
| LoadRunner.CleanRuns | apps/pstn-protocol-simulator/src/load-runner.ts:234-258 | the loop adds no failure exactly when every remaining stage is clean, and then reports them all in order |
| LoadRunner.CleanMeansPassed | apps/pstn-protocol-simulator/src/load-runner.ts:372-424 | a stage without failures reached its concurrency with fresh telemetry, exercised all scenarios, and no call failed - or, with a driver that keeps its contract, all passed |
| LoadRunner.PassedMeansEverythingPassed | apps/pstn-protocol-simulator/src/load-runner.ts:217-261 | a report says passed exactly when the first read was usable and every stage was clean; then every stage ran in order, means what it says and drained, and the extra objective test adds nothing |
| LoadRunner.PassedMeansAllCallsPassed | apps/pstn-protocol-simulator/src/load-runner.ts:217-261 | with calls made by the driver, a passed report means that every call of every stage passed and every success rate is 1 |
| LoadDriver.DrivenRuns | apps/pstn-protocol-simulator/src/load-driver.ts:48-126 | calls made by the driver carry the scenario asked for, are aborted only after the stage was, and never blame an unexercised scenario |
| Profiles.CountedStagesSuffice | apps/pstn-protocol-simulator/src/load-profiles.ts:50-106 | every counted built-in stage has a worker, no deadline, and at least as many calls as scenarios |
| Profiles.RoundRobinCovers | apps/pstn-protocol-simulator/src/load-runner.ts:342-342 | indices 0..n-1 in turn cover every scenario when n is at least their number |
| Profiles.BuiltInStagesCoverTheirScenarios | apps/pstn-protocol-simulator/src/load-profiles.ts:50-106 | for every target of at least 1, a counted built-in stage that runs without abort on calls of the driver records its call count, exercises all its scenarios, and never reports an unexercised one, in its failures or in its report |
| BuilderIds.GetNextBuilderNodeNumber | apps/web/src/workflowBuilderIds.ts:1-19 | one more than the largest suffix in use behind the prefix, and 1 when there is none |
| BuilderIds.NextNumberIsFresh | apps/web/src/workflowBuilderIds.ts:1-19 | the id made from the next number is not in use |
| BuilderIds.BuildEdgeId | apps/web/src/WorkflowBuilder.tsx:5590-5603 | the returned edge id is not in use, and the search ends by the pigeonhole on the edge list |
| Decimal.ParseIntPrint | apps/web/src/workflowBuilderIds.ts:9-9 | parseInt gives a printed number back |
| CanvasIntegrity.CanvasKeepsIntegrity | apps/web/src/WorkflowBuilder.tsx:1210-1545 | over any sequence of edits node ids and edge ids stay distinct and every edge has both ends, also in what undo would restore |
| CanvasIntegrity.LoadedIntegrity | apps/web/src/WorkflowBuilder.tsx:4762-4785 | a loaded canvas has integrity exactly when the supported node ids and the kept edge ids are distinct: no dangling edge is ever loaded |
| CanvasIntegrity.RepairMends | apps/web/src/WorkflowBuilder.tsx:4983-5112 | repair leaves no dangling edge whatever it is given, keeps edge ids distinct, and changes no edge when it reports no repair |
| CanvasIntegrity.UndoRestores | apps/web/src/WorkflowBuilder.tsx:1434-1465 | deleting a non-entry node removes it and all its edges, and undo restores the canvas whole |
| CanvasIntegrity.FillSettles | apps/web/src/WorkflowBuilder.tsx:4637-4673 | filling empty routers keeps ids, leaves none empty that has a target, and a second pass changes nothing |
| CanvasIntegrity.ConnectKeeps | apps/web/src/WorkflowBuilder.tsx:1210-1239 | connecting adds at most one edge with a fresh id between existing nodes |
| CanvasIntegrity.ReconnectKeeps | apps/web/src/WorkflowBuilder.tsx:1241-1272 | reconnecting keeps the edge's id and gives it existing ends |
| CanvasIntegrity.AppendKeeps | apps/web/src/WorkflowBuilder.tsx:1274-1324 | a fresh node and its link keep integrity, whatever the policy decides |
| CanvasIntegrity.EnsureKeeps | apps/web/src/WorkflowBuilder.tsx:5046-5112 | companion edges get fresh ids and existing ends, and are counted as repairs |
| CanvasEditor.FillEmptyAgentRoutePolicyBranches | apps/web/src/WorkflowBuilder.tsx:4637-4673 | the filled list, and a changed flag that is up exactly when some node changed |
| CanvasEditor.RepairEachEdge | apps/web/src/WorkflowBuilder.tsx:4996-5044 | every edge kept, changed or dropped by the policy, with the number of repairs |
| CanvasEditor.EnsurePolicyCompanionEdges | apps/web/src/WorkflowBuilder.tsx:5046-5112 | the loop adds the missing companions of every kept flow edge |
| CanvasEditor.RepairBuilderEdges | apps/web/src/WorkflowBuilder.tsx:4996-5044 | both loops of the repair in turn |
| CanvasEditor.WorkflowBuilder.AddNode | apps/web/src/WorkflowBuilder.tsx:1326-1432 | a new node gets the next number of its prefix and is linked from the selection |
| CanvasEditor.WorkflowBuilder.AppendLinkedNode | apps/web/src/WorkflowBuilder.tsx:1274-1324 | the node is added, linked if the policy allows, and selected |
| CanvasEditor.WorkflowBuilder.DeleteSelectedNode | apps/web/src/WorkflowBuilder.tsx:1434-1452 | the selected node and its edges go into the snapshot and off the canvas |
| CanvasEditor.WorkflowBuilder.RepairBuilderRelationships | apps/web/src/WorkflowBuilder.tsx:1480-1501 | the repaired edges are taken only when something was repaired |

## Left out

- TwimlScanner.ParserRefinesTree: one direction, because a lost item that a later one overrides, or whose name the parser does not know, changes nothing in the result.
- RealtimeServer.OpenAiRealtimeProtocolSimulator.ChooseMode: the source hands the broken frame to the socket without looking at its state and records it; here a socket that is not open puts nothing on the wire, and the record is not modelled.
- PoolTheorems.PoolCanFinish: a stage with neither call count nor deadline ends only by an abort and is not covered.
- Analysis.PercentileIsNearestRank: models quantiles over the reals, so the rounding of `length * quantile` in binary floating point is not captured; latencies that are not finite are counted as missing evidence but not sorted.
- BuilderIds.NextNumberIsFresh: numbers are unbounded integers; the loss of precision of JavaScript numbers above 2^53 is not modelled.
- PoolTheorems.CallCountIsExact: a stage with a duration may drop taken indices at its deadline, so exactness is stated for stages without one.
- WebSocket, fetch, timers, SHA-256 and HMAC, JSON, base64 and the SAX parser: libraries, reduced to events, bytes, or the tags the parser reports.
- A send that throws, or a message that arrives while another is being handled in the same step: sends always succeed in this model.
- The rejected promise that an empty payload's error delivers to `waitUntilIdle`: the queue's own state after the error is modelled, the caller's exception is not.
- The record log of the provider simulator (`record`, `getRecords`, the cap of 10,000 entries) and `session.updated`, which no property of a turn depends on.
- `waitForCallIdle` and the forced termination after `stop`: polling loops around state that is modelled.
- The identity of the active-task set objects: a task leaves its call's set, which equals the set it joined because a call is released only when that set is empty.
- The later duplicate-stream attempt (`attemptDuplicateMediaStream`): single-branch checks of one outcome.
- The load driver's scenario table and contracts (`scenarioFor`, `validateScenario`), its choice of tenant and its clean-up: whether the behaviour passed enters as a value.
- The field-by-field shape of telemetry (`hasRequiredTelemetry`): a sample is complete or not.
- Report fields that are copied through (commit, environment, timestamps, resource shape, latency percentiles of calls and media connects).
- React Flow's own node and edge changes, stale closures of React callbacks, and the rest of the builder's user interface.
- Node positions, labels and configuration other than an agent's name and its route branches; `createWorkflowGraph` and `resolveWorkflowBuilderWorkbench`.
- Order of strings by UTF-16 code unit outside the Basic Multilingual Plane in `signTwilioWebhook`.
