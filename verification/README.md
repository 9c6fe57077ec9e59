# A verified model of the voice gateway's session layer

The gateway holds one WebSocket session per device. A device says hello, listens, is answered by a
language model and speech synthesis, and can abort at any moment. This project models the parts of the
server in which goroutines meet, and proves what they guarantee together.

## What is modelled

**The voice-turn protocol.** `Supervisor` is the six-state machine with its generation counter, one
function per event handler; `SessionObject.Session` is the same handlers as methods that update fields, each
proved equal to its function. `Turn` holds the three goroutines of one answered turn (orchestration, PCM
consumer, pacer) as program counters that advance by atomic steps, split at every generation check, every
critical section and every enqueue. `World` puts the supervisor, the event channel and any number of turns
together: a run is any finite sequence of steps, a step that is not enabled changes nothing, so every
interleaving is a run. The log of a world records what the write queue accepted, tagged with the generation
it belongs to, the goroutine that sent it and the session's generation at that moment. Whether the write
queue accepts a message is a choice of the step. `SupervisorLaws`, `TurnLaws` and `WorldLaws` hold the
invariants, `RequestLaws` those of the LLM requests, `Theorems` the results for all runs, `Witnesses` runs that show
exceptions to be real. `HandlerLaws` and `GoroutineLaws` say of every effect of a handler and of every message, report and way
out of a goroutine exactly when it comes about; `Progress` says what a turn can always do: play and end when nothing stands in its
way, come to rest when it is over.

**From tokens to speech.** `Splitter` is the incremental sentence splitter at rune level and `SplitterLaws` what
it promises over all sequences of Feed and Flush; `Chunking` says exactly when the chunks move a boundary. `Orchestration`
is the path of one turn from the message list over the LLM streams and tool calls to the TTS stream, with every
outcome of a call chosen by the environment.

**From speech to packets.** `Encoder` is the PCM framer and the stream encoder over an abstract codec; `PcmConsumer`
feeds it from the TTS stream and hands the packets to the pacer object of `Pacer`.

**The layers together.** `EndToEnd` is the session once more, but its turns read PCM blocks and LLM chunks: the packets on
their way are those the encoder makes of the blocks, the sentences those the splitter makes of the chunks. Every such
story is a run of `World`, so all results hold of it, and a committed turn is described from its inputs to its log.

**Queues.** `Writer` (the serial write queue) and `AsrQueue` (the audio queue before an ASR stream) are step systems
over every interleaving of their callers and their worker, with the objects beside them.

**Admission.** `Admission` is the limiter, the registry and the path of every connection through `ServeHTTP`, again
over every interleaving of critical sections.

**The log limiter.** `TokenBucket` is the token bucket over the reals.

## What the code does not keep

* The requirements document (docs/agents/requirements-and-architecture.md, section 9.5) has an abort close a turn whose tts.start
  went out with a tts.stop. The code fails to exactly when, as the abort is handled, the pacer stands between its last check
  before tts.start and the switch to SPEAKING: a start enqueued before the abort gets no stop, and one enqueued behind it
  neither (`Theorems.AbortStopsExactly`, `Witnesses.AbortWithoutStop`, `Witnesses.StartBehindAbort`).
* Its section 9.4 has tts.start go out before the first audio. A pacer that is stopped between taking the first packet and
  beginning tts.start, which a failed orchestration does without raising the generation, sends packets without it; this is
  the only way (`Theorems.StartComesFirst`, `Witnesses.PacketWithoutStart`).
* The state diagram of the same document (section 9.1) has no way from LISTENING back to READY; an abort and an empty final
  text take it (`SupervisorLaws.HandlerFollowsArrows`). Its section 9.3 excludes tool calls; the code makes them, and the
  model follows the code.
* A turn whose PCM was cut short can enter the history: a NextPCM error that matches `context.Canceled` makes the
  consumer report success while the turn is alive (`Witnesses.TruncatedTurnCommitted`). It is the only way
  (`Theorems.CommittedTurnsAreWhole`, `Theorems.BrokenTurnsAreNeverCommitted`).
* A stale hello timeout is not ignored; no harm, because hello timeouts are posted under generation 0
  (`SupervisorLaws.StaleIsIgnoredExactly`).
* When a tool is called after some text was spoken, that text is spoken but not remembered
  (`Orchestration.AnswerIsWhatWasSpoken`).
* Where the parts of a text end depends on how it is chunked, exactly when a chunk comes too late: the buffer is empty,
  nothing was skipped since the last cut, that cut fell behind a sentence end, and the chunk begins with punctuation that
  would have trailed it (`Chunking.ChunksMoveABoundaryExactly`, `Chunking.SentencesDiffer`). What is said does not depend on it.
* Not every LLM request is prompt, history and user text: the request after tool calls goes on from the first with the
  calls and their results (`RequestLaws.RequestsInEveryRun`, `Witnesses.SecondRequest`).
* A shutdown that ended without error does not mean that all slots are free: they are if and only if no connection holds
  one without being registered (`Admission.ShutdownIsComplete`, `Admission.SlotTakenAfterShutdown`).
* `Finish` of the ASR queue would panic a concurrent `Push`; only that both are called by the supervisor prevents it
  (`AsrQueue.FinishDuringPush`).
* The bound of the token bucket fails for windows that end with a refused call exactly when that call found less than
  nothing, as it can when clocks run backwards. The window since the bucket was made is one of them, and it alone may be
  exceeded if the first call comes from before that (`TokenBucket.RefusedWindowsExactly`, `TokenBucket.RefusedWindowCanExceed`,
  `TokenBucket.WholeAloneExceeded`).

## Model

| member | source | states |
|---|---|---|
| Theorems.CommittedTurnsAreWhole | internal/session/session.go:927-985 | in every run, a committed turn has in the log exactly one tts.start, then every audible packet the encoder produced (at least one), once each and in order, then exactly one tts.stop; its orchestration succeeded, its pacer reached the end, its consumer ended at the end of the PCM or on a read error that matches context.Canceled; its texts are those of the turn |
| Theorems.CommitsRise | internal/session/session.go:927-985 | turns are committed in the order of their generations, each at most once |
| Theorems.BrokenTurnsAreNeverCommitted | internal/session/orchestration.go:557-660 | a turn whose orchestration failed (LLM, TTS, writer), whose pacer failed or never reached its end, whose packet queue overflowed, or whose consumer gave up for any other reason than those two is in no history |
| Theorems.BracketsInEveryRun | internal/session/pacer.go:296-329 | in every interleaving each generation has at most one orchestration, one tts.start, one tts.stop, and every tts.stop has an earlier tts.start of its generation |
| Theorems.StartedMeansSpeaking | internal/session/pacer.go:315-323 | in every run an answered turn whose tts.start is in the log is in SPEAKING if and only if its pacer is not just about to switch it; it has no tts.stop yet |
| Theorems.AbortStopsExactly | internal/session/session.go:988-1033 | however a run goes on after an abort, by the device's message or an explicit event: if the ended turn has its tts.start in the log, before or behind the abort, it has its tts.stop if and only if the pacer did not stand between its last check before tts.start and the switch to SPEAKING when the abort was handled |
| Theorems.AbortBalances | internal/session/session.go:994-1013 | a pacer that stood elsewhere leaves the ended turn with as many tts.stops as tts.starts for ever |
| Theorems.RunQuiets | internal/session/pacer.go:309-329 | of a turn that is over no tts.stop is enqueued any more, and a tts.start only if its pacer had passed its last check |
| Theorems.StartComesFirst | internal/session/pacer.go:296-367 | the messages of a current turn are one tts.start and then packets if and only if its pacer began tts.start or said nothing; otherwise the pacer was stopped and they are packets alone |
| Theorems.LeakIsBounded | internal/session/pacer.go:296-367 | after the generation has passed a turn, however the run goes on, its orchestration logs at most one more message and its pacer at most one more |
| Theorems.RunContinues | internal/session/orchestration.go:214-238 | whatever a goroutine logs after the generation has passed is counted as late: the link between the bound and the steps |
| Theorems.OverMeansOver | internal/session/session.go:927-935 | a turn whose generation is over, by an abort or the next turn, is committed by then or never, however the run goes on |
| Theorems.HistoryInEveryRun | internal/session/orchestration.go:46-70 | while the session is open the history is exactly the last committed turns, at most the configured number, in commit order |
| Theorems.FinishedTurnsAreCommitted | internal/session/session.go:948-970 | in every run the handling of an event adds a turn to the history if and only if it is the finish event of the current generation in SPEAKING, both texts are there and tts.stop is encoded and accepted; then it adds exactly that turn |
| Theorems.OverTurnsAreCancelled | internal/session/session.go:994-1013 | in every run a turn that is no longer answered has its context cancelled, and its pacer sees that too |
| Theorems.StoppedPacersAreEmpty | internal/session/pacer.go:183-190 | a handler that stops a pacer leaves it with the flag set, its context cancelled and nothing queued |
| Theorems.EventsAreHandledInOrder | internal/session/session.go:485-500 | events are handled one by one in the order posted, each by its handler |
| Theorems.FaultsAreReported | internal/session/orchestration.go:183-238 | in every run, once an orchestration, a consumer or a pacer has had a call fail with an error that is no cancellation, its generation has passed, the session or a context is done, a fatal error of the turn is in the channel before any finish event, or its very next step posts one |
| Theorems.FailedTurnsStopThePacer | internal/session/orchestration.go:150-181 | in every run an orchestration with such a failure never succeeds, and one that failed in any way and has ended has stopped its pacer and cancelled the pacer's context |
| RequestLaws.RequestsInEveryRun | internal/session/orchestration.go:15-43 | every LLM request of an open session begins with the optional system prompt, then both messages of each of the last committed turns of the moment its list was begun, in order, then the user's text, all written out; it is no more than that if and only if it is the first of its turn; the other goes on from the first with the assistant's text, its tool calls and one result for each call |
| RequestLaws.SecondInOrder | internal/session/orchestration.go:301-342 | the second list keeps the first, then has the assistant's text with its calls, then for call i the i-th result under the id of call i |
| RequestLaws.TwoRequestsAtMost | internal/session/orchestration.go:343-372 | no turn makes a third request |
| RequestLaws.StepKeepsRequests | internal/session/orchestration.go:15-43 | every step of the whole session keeps this |
| Theorems.TimersAndStreamsInEveryRun | internal/session/session.go:1299-1363 | the timer, stream and context invariants hold in every run of the whole system, other goroutines included |
| Witnesses.SecondRequest | internal/session/orchestration.go:301-346 | a run in which a turn asks twice and the second list is longer |
| Witnesses.AbortWithoutStop | internal/session/pacer.go:319-322 | a run in which the device's abort falls between the start message and the switch: a tts.start without a tts.stop |
| Witnesses.StartBehindAbort | internal/session/pacer.go:315-321 | a run in which tts.start is enqueued behind the abort and never closed |
| Witnesses.PacketWithoutStart | internal/session/pacer.go:297-301 | a run in which a stopped pacer sends a packet without tts.start |
| Witnesses.TruncatedTurnCommitted | internal/session/orchestration.go:602-604 | a run in which a turn is committed although its consumer stopped on a cancelled read before the end of the PCM |
| GoroutineLaws.BreaksExactly | internal/session/orchestration.go:105-491 | an orchestration ends early if and only if a call fails, it sees its context done or its generation passed, or its consumer failed; a report is due if and only if the error is no cancellation, the context not done and, where it is looked at, the generation current |
| GoroutineLaws.ArmsExactly | internal/session/orchestration.go:214-335 | a sentence or a tool request is made ready if and only if the check just before saw the current generation; no tool request after the second LLM request |
| GoroutineLaws.OrchSaysExactly | internal/session/orchestration.go:214-238 | what is enqueued is what was made ready, and a report is posted if and only if one is due |
| GoroutineLaws.OrchTouchesThePacer | internal/session/orchestration.go:150-181 | input finished, stop flag and cancellation of the pacer are each set by their own step; the input is finished only after a consumer that did not fail |
| GoroutineLaws.HandsExactly | internal/session/pacer.go:127-163 | a packet enters the pacer's queue if and only if there is room and the cancelled context is not picked; overflow happens if and only if there is none and the context is not cancelled |
| GoroutineLaws.ReturnsExactly | internal/session/orchestration.go:494-661 | each of the eight reasons for which a consumer returns, if and only if |
| GoroutineLaws.ConsReportsExactly | internal/session/orchestration.go:534-660 | a consumer posts an error if and only if the queue overflowed, the encoder could not be made, or a read or an encoding failed for good while the turn was current |
| GoroutineLaws.ReadsExactly | internal/session/orchestration.go:557-660 | what a block or the flush was encoded into is what is on its way, all of it |
| GoroutineLaws.PacerSaysExactly | internal/session/pacer.go:296-367 | tts.start, packets, the switch to SPEAKING, the end of the turn and the error report each happen if and only if the pacer stands at their place and the call succeeds |
| GoroutineLaws.PacerLooks | internal/session/pacer.go:296-367 | behind each look at the generation or the stop flag the pacer goes on if and only if what it saw allows it |
| GoroutineLaws.PacerMovesExactly | internal/session/pacer.go:223-280 | when the pacer takes a packet, leaves, fails, drains, or ends its turn, if and only if |
| Progress.TurnCanBeSpoken | internal/session/orchestration.go:105-491 | while nothing stands in its way an orchestration can open its streams, ask once, announce any sentences in order, and come to wait for its consumer with any answer, reporting nothing |
| Progress.TurnCanBeHandedOver | internal/session/orchestration.go:449-491 | with the consumer done without error it can hand both texts to the pacer and finish its input |
| Progress.BlockCanBeDelivered | internal/session/orchestration.go:557-660 | a consumer can hand all packets of a block to the pacer, in order and without the empty ones, if the queue has room, and goes on or is done |
| Progress.TurnCanBePlayed | internal/session/pacer.go:223-383 | a pacer whose input is finished can say exactly what is owed, tts.start if due and then all queued packets in order, and end the turn with its texts |
| Progress.FinishIsSeen | internal/session/pacer.go:252-255 | it gets there from the head of its loop once the input is finished |
| Progress.OverTurnsCanRest | internal/session/session.go:988-1033 | in every run all goroutines of a turn that is no longer answered can come to their ends by their own steps, with no further message and no report but the one they were about to make |
| Progress.PacerCanLeave | internal/session/pacer.go:223-280 | wherever a pacer with a cancelled context stands, it can empty its queue and leave without a message |
| WorldLaws.RunInv | internal/session/session.go:485-500 | the invariant behind the theorems holds after every sequence of steps |
| WorldLaws.CommittedWhole | internal/session/pacer.go:370-383 | a finished turn still in SPEAKING without an error ahead of it was delivered whole |
| WorldLaws.SuperviseKeeps | internal/session/session.go:503-531 | handling the next event, whatever its calls return, keeps the invariant |
| WorldLaws.ExternalKeeps | internal/session/session.go:1121-1180 | a Close from outside keeps the invariant |
| WorldLaws.OrchestrationKeeps | internal/session/orchestration.go:105-491 | every step of an orchestration keeps the invariant |
| WorldLaws.ConsumerKeeps | internal/session/orchestration.go:494-661 | every step of a PCM consumer keeps the invariant |
| WorldLaws.PacerKeeps | internal/session/pacer.go:223-383 | every step of a pacer keeps the invariant |
| TurnLaws.PaceKeepsStart | internal/session/pacer.go:296-329 | a pacer step never adds a second tts.start and never a tts.stop |
| TurnLaws.PaceKeepsFlow | internal/session/pacer.go:223-280 | packets pass from the queue to the log without loss, repetition or reordering |
| TurnLaws.PaceKeepsShape | internal/session/pacer.go:332-367 | until its tts.stop, and as long as its pacer is not stopped, a turn's messages are one tts.start followed by packets |
| TurnLaws.PaceKeepsBare | internal/session/pacer.go:296-367 | stopped or not, they are that or, behind a stop before tts.start, packets alone |
| TurnLaws.ConsKeepsDelivery | internal/session/pacer.go:127-163 | packets accepted and packets still pending are exactly the audible ones produced |
| TurnLaws.OrchKeepsLeak | internal/session/orchestration.go:214-238 | an orchestration step keeps the bound of one late message |
| TurnLaws.PaceKeepsLeak | internal/session/pacer.go:296-367 | a pacer step keeps the bound of one late message |
| TurnLaws.StopKeeps | internal/session/pacer.go:183-190 | stopping the pacer from a handler keeps the invariant of the turn |
| SupervisorLaws.TimersAndStreamsInEveryRun | internal/session/session.go:1299-1432 | in LISTENING exactly one of the two timers is held, the result timer precisely after a manual stop, elsewhere neither; ASR stream and queue exist only in LISTENING, under the current generation |
| SupervisorLaws.GenerationNeverFalls | internal/session/session.go:637-652 | the generation never falls, a closed session stays closed and its history stays as it is |
| SupervisorLaws.StaleIsIgnoredExactly | internal/session/session.go:1036-1089 | a stale event changes nothing if and only if it is not a hello timeout before the handshake |
| SupervisorLaws.StaleHelloTimeoutCanClose | internal/session/session.go:1280-1285 | a hello timeout under a foreign generation would close the session; the timer's own carries 0 and is never stale |
| SupervisorLaws.StaleEventsCanBeErased | internal/session/session.go:816-824 | erasing every stale event from a run changes neither the final state nor any effect |
| SupervisorLaws.NothingLateAfterAnAbort | internal/session/session.go:988-1033 | an abort, by message or event, leaves READY, the next generation, the history, and nothing of the turn; no sequence of events of past generations changes state or has an effect afterwards |
| SupervisorLaws.HandlerFollowsArrows | internal/session/session.go:503-531 | every handler follows the state diagram; LISTENING falls back to READY exactly on an abort or an empty final text |
| SupervisorLaws.EveryInputFollowsArrows | internal/session/session.go:228-239 | so does everything else that writes the state, and only the pacer leads to SPEAKING |
| SupervisorLaws.AudioIsPushedExactly | internal/session/session.go:730-813 | when a frame reaches the ASR queue, exactly, and that it is the queue of the current generation |
| SupervisorLaws.PairsAlternate | internal/session/orchestration.go:54-57 | the history alternates user and assistant, each text in its place |
| SupervisorLaws.AppendKeepsLastTurns | internal/session/orchestration.go:46-70 | appending to the last m turns and trimming to 2m messages gives the last m turns |
| SupervisorLaws.HandlerMoves | internal/session/session.go:503-531 | a handler moves the generation by at most one, then to READY or LISTENING |
| SupervisorLaws.HandlerSpawns | internal/session/session.go:816-885 | a turn is answered only if it was, or if this handler starts its orchestration out of LISTENING |
| SupervisorLaws.HandlerSpeech | internal/session/session.go:1082-1109 | a handler logs tts.stop only when it ends SPEAKING, under the generation it ends |
| SupervisorLaws.HandlerCommits | internal/session/session.go:942-967 | a turn is committed only by its own finish event, in SPEAKING, with an accepted tts.stop and both texts |
| SupervisorLaws.FatalErrorCloses | internal/session/session.go:1082-1109 | a fatal error of the current generation closes the session |
| HandlerLaws.ClosesExactly | internal/session/session.go:503-531 | for every open state, event and outcome: the session is closed if and only if the event ends it, and then holds and remembers nothing |
| HandlerLaws.GreetsExactly | internal/session/session.go:533-617 | the hello reply goes out, and CONNECTED becomes READY, if and only if the hello comes in CONNECTED, as text, is valid, and the reply is accepted |
| HandlerLaws.ListensExactly | internal/session/session.go:620-660 | a turn begins if and only if listen.start comes in READY; generation, mode, context, timer, stream, queue and the self-posted error are as stated |
| HandlerLaws.ManualStopExactly | internal/session/session.go:663-704 | the ASR input is declared complete if and only if the first listen.stop of a manual turn comes in LISTENING; the timers are swapped and nothing else changes |
| HandlerLaws.AnswersExactly | internal/session/session.go:816-885 | an orchestration is started if and only if a final text that is not empty comes in LISTENING under the current generation; it gets that text and the device is sent it |
| HandlerLaws.CommitsExactly | internal/session/session.go:927-985 | a commit is made if and only if the current turn's finish event comes in SPEAKING with an accepted tts.stop and both texts; the history then is what it was and that pair, cut to the limit, and without a commit it stays |
| HandlerLaws.StopsExactly | internal/session/session.go:948-1019 | tts.stop is enqueued if and only if SPEAKING ends by finish, abort or fatal error, and it can be encoded and is accepted |
| HandlerLaws.AbortsExactly | internal/session/session.go:988-1033 | pending writes are discarded if and only if an abort comes after the hello; the generation goes up, context and pacer are let go; it goes up otherwise only when a turn begins |
| HandlerLaws.NoContextIsLeft | internal/session/session.go:988-1033 | a turn context the session lets go of is cancelled, and no other is |
| HandlerLaws.NoPacerIsLeft | internal/session/session.go:988-1033 | a pacer the session lets go of is stopped, and no other is |
| HandlerLaws.TurnsEndExactly | internal/session/session.go:927-1033 | a turn ends in READY if and only if it is finished, aborted or heard nothing; TTS stream and pacer are gone then |
| HandlerLaws.OtherwiseNothing | internal/session/session.go:503-531 | an event that does none of these changes no field and has no effect but a pushed frame |
| HandlerLaws.SpeaksExactly | internal/session/session.go:228-239 | the pacer's switch happens in PROCESSING of its own generation only and touches nothing else |
| HandlerLaws.Defaults | internal/session/session.go:24-34 | what stands in for limits that are not positive: 6 turns, 1024 bytes |
| SessionObject.Session.OnText | internal/session/session.go:620-728 | as the handler function; the invariant is kept |
| SessionObject.Session.CloseWithReason | internal/session/session.go:1121-1180 | the fields end as the close function says, the turn context and the pacer are given up |
| SessionObject.Session.TransitionToSpeaking | internal/session/session.go:228-239 | only PROCESSING of the same generation becomes SPEAKING |
| SessionObject.Session.AddToHistory | internal/session/orchestration.go:46-70 | the history in place becomes the appended and trimmed one |
| SessionObject.Session.BuildRequest | internal/session/orchestration.go:15-43 | the optional prompt, then the whole history, then the user's text, written out |
| SessionObject.Session.OnHello | internal/session/session.go:533-617 | new fields and effects are those of the handler function |
| SessionObject.Session.StartAsr | internal/session/session.go:1397-1432 | slots filled, or a fatal error posted to itself, or neither |
| SessionObject.Session.OnListenStart | internal/session/session.go:637-660 | as the handler function; the object's invariant (timers, streams and turn context fit the state) is required and kept |
| SessionObject.Session.OnListenStop | internal/session/session.go:671-704 | as the handler function; the object's invariant (timers, streams and turn context fit the state) is required and kept |
| SessionObject.Session.OnAudio | internal/session/session.go:730-813 | as the handler function; the invariant is required and kept, and by it a frame goes only to the queue of the current generation |
| SessionObject.Session.OnAsrFinal | internal/session/session.go:816-885 | as the handler function; the object's invariant (timers, streams and turn context fit the state) is required and kept |
| SessionObject.Session.OnTurnFinished | internal/session/session.go:927-985 | as the handler function; the object's invariant (timers, streams and turn context fit the state) is required and kept |
| SessionObject.Session.OnAbort | internal/session/session.go:988-1033 | as the handler function; the object's invariant (timers, streams and turn context fit the state) is required and kept |
| SessionObject.Session.OnTimeout | internal/session/session.go:1036-1079 | as the handler function; the object's invariant (timers, streams and turn context fit the state) is required and kept |
| SessionObject.Session.OnError | internal/session/session.go:1082-1109 | as the handler function; the object's invariant (timers, streams and turn context fit the state) is required and kept |
| SessionObject.Session.OnEvent | internal/session/session.go:503-531 | dispatch: the whole object does what the handler function says, for every event but TTS-started |
| Splitter.FirstEndIsLeast | internal/session/splitter.go:69-95 | the scan finds the least position before the limit that ends a sentence: sentence punctuation, no decimal point, content before it |
| Splitter.CutMeaning | internal/session/splitter.go:65-104 | where the buffer is cut: behind the first such position and all punctuation that trails it, else at 30 runes; there is no cut exactly when the buffer is shorter and ends nothing |
| Splitter.FindCut | internal/session/splitter.go:65-104 | the nested loops find exactly that cut |
| Splitter.SentenceSplitter.Split | internal/session/splitter.go:52-121 | the loop hands out the trimmed parts of the segmentation and keeps its rest; it terminates |
| Splitter.SentenceSplitter.Feed | internal/session/splitter.go:27-34 | one chunk: the sentences of buffer and chunk, the rest kept |
| Splitter.SentenceSplitter.Flush | internal/session/splitter.go:37-49 | the trimmed buffer, which is then empty |
| SplitterLaws.CallsAgree | internal/session/splitter.go:27-49 | the object hands out exactly the sentences of the pieces of the text, call by call |
| SplitterLaws.NothingIsLost | internal/session/splitter.go:27-121 | after any calls the text fed is the pieces in order, each behind nothing but whitespace, then whitespace, then the buffer |
| SplitterLaws.SentencesAreBounded | internal/session/splitter.go:55-117 | one sentence per piece, none dropped, none empty; behind rune 30 only trailing punctuation; the buffer is shorter than 30 runes and does not begin with whitespace |
| SplitterLaws.SentencesCarryTheText | internal/session/splitter.go:27-121 | the non-whitespace runes come out in order, each once, but for those still in the buffer |
| SplitterLaws.ChunkingIsInaudible | internal/session/splitter.go:27-49 | two chunkings of one text hand out the same non-whitespace runes once flushed |
| SplitterLaws.DecimalsStayWhole | internal/session/splitter.go:151-165 | without a flush on the way, a boundary falls between the period and the second digit of a decimal only if the part just cut is exactly 30 runes long |
| SplitterLaws.DueMarksCut | internal/session/splitter.go:65-121 | in characters alone: a buffer is cut if and only if it has 30 runes or a due mark, sentence punctuation behind content that is no decimal point and cannot become one; the cut is behind the first due mark of the first 30 runes and what trails it, or else at rune 30 |
| SplitterLaws.NothingDueIsKept | internal/session/splitter.go:52-121 | after every sequence of Feed and Flush the only sentence punctuation behind content in the buffer is a period between two digits or, at its end, behind a digit |
| SplitterLaws.MarksAreTheListed | internal/session/splitter.go:124-149 | the characters that end a sentence, that trail one, and that are content |
| SplitterLaws.SpacesAreTheListed | internal/session/splitter.go:54-60 | the characters trimmed as white space |
| Chunking.ChunksMoveABoundaryExactly | internal/session/splitter.go:52-121 | without a flush, parts and buffer are those of the text fed at once if and only if no chunk comes too late |
| Chunking.TwoChunks | internal/session/splitter.go:27-34 | a chunk that does not come too late continues the segmentation as if both chunks had come at once |
| Chunking.TooLateMatters | internal/session/splitter.go:85-95 | one that does would have made the last part longer |
| Chunking.CutOfLonger | internal/session/splitter.go:65-104 | more text moves the first cut of a buffer exactly by the punctuation it begins with, and only if the cut is behind a sentence end at the very end of the buffer |
| Chunking.PartsOnlyGrow | internal/session/splitter.go:52-121 | more text never makes a part shorter or takes one away |
| Chunking.SentencesDiffer | internal/session/splitter.go:85-95 | "a!" and "!b" give other sentences than "a!!b" |
| Orchestration.Turn.Deliver | internal/session/orchestration.go:214-238 | the text message goes out before the sentence is given to TTS, whatever fails |
| Orchestration.Turn.Consume | internal/session/orchestration.go:241-286 | one stream: every sentence completed by its chunks is announced and spoken; a failing run made a first part of those calls |
| Orchestration.Turn.CallTools | internal/session/orchestration.go:309-341 | one answer for each tool call, in order; a call that is not allowed is refused and never sent to the device |
| Orchestration.ListAfterInOrder | internal/session/orchestration.go:301-342 | the second list keeps its context, goes on with what was said and called, and answers each call under its own id in order |
| Orchestration.Turn.Orchestrate | internal/session/orchestration.go:123-491 | on success the calls made are exactly announcement and sentence for every sentence of both streams, then one Finish; otherwise a first part of them; what is handed over is the last stream's text; the model was asked once, or twice when it called tools, with the list that goes on |
| Orchestration.SpeechCarriesAllChunks | internal/session/orchestration.go:241-446 | the sentences of a successful turn carry exactly the non-whitespace runes of all chunks of both streams, in order |
| Orchestration.AnswerIsWhatWasSpoken | internal/session/orchestration.go:371-373 | the remembered answer is what was spoken, up to whitespace, if and only if no tool was called or the first stream said only whitespace |
| Encoder.FramesConserve | internal/audio/encoder.go:148-160 | frames joined and residue are the input |
| Encoder.ChunkingsAgree | internal/audio/encoder.go:143-182 | two chunkings of the same bytes give the same frames and residue; with the flush ceil(n / 2880) frames of 2880 bytes |
| Encoder.StreamConserves | internal/audio/encoder.go:170-182 | the flushed frames joined are the input followed by less than a frame of silence |
| Encoder.SamplesAreFaithful | internal/audio/encoder.go:83-86 | no two frames have the same samples |
| Encoder.SampleIsLittleEndian | internal/audio/encoder.go:83-86 | sample i of a frame is v if and only if byte 2i is v modulo 256 and byte 2i + 1 is v divided by 256, modulo 256: decoding inverts little-endian encoding |
| Encoder.PacketsExactly | internal/audio/encoder.go:205-224 | encoding succeeds if and only if the codec takes every frame |
| Encoder.EncodingIgnoresChunks | internal/audio/encoder.go:205-224 | packets, failure and the codec's history depend only on the bytes, for every codec |
| Encoder.FlushedStreamIgnoresChunks | internal/audio/encoder.go:227-246 | the same with the flush; ceil(n / 2880) packets when nothing fails |
| Encoder.PacketsAreInOrder | internal/audio/encoder.go:216-223 | one packet a frame, in order, each from the history up to its own frame |
| Encoder.PCMFramer.Feed | internal/audio/encoder.go:143-163 | the frames are those of buffer and chunk, each a fresh array of its own; the residue is kept |
| Encoder.PCMFramer.Flush | internal/audio/encoder.go:169-178 | at most one frame, padded with silence |
| Encoder.PCMFramer.Reset | internal/audio/encoder.go:180-183 | the buffer is empty |
| Encoder.OpusEncoder.Encode | internal/audio/encoder.go:74-95 | closed, wrong length, failure or one packet; of every sample that the codec sees the low byte is the first of its pair and the high byte the second |
| Encoder.StreamEncoder.Feed | internal/audio/encoder.go:205-224 | the packets of all whole frames or the first failure, after which the batch is lost although its frames were consumed |
| Encoder.StreamEncoder.Flush | internal/audio/encoder.go:227-246 | the same for the padded residue |
| PcmConsumer.Consume | internal/session/orchestration.go:534-660 | without an encoder nothing is read; otherwise, whatever other goroutines do, a consumer that ends at the end of the PCM gave the pacer every audible packet of the stream once and in order; one that ends on a cancelled read all but the flushed one; any other a first part |
| PcmConsumer.MadeIgnoresBlocks | internal/session/orchestration.go:557-660 | what is delivered depends only on the PCM bytes, not on the blocks they came in |
| Pacer.DownlinkPacer.Enqueue | internal/session/pacer.go:127-163 | when a packet is taken, exactly; a full queue is reported once as a fatal error |
| Pacer.DownlinkPacer.SendStart | internal/session/pacer.go:296-329 | at most one tts.start, none when stopped or outdated |
| Pacer.DownlinkPacer.SendPacket | internal/session/pacer.go:332-367 | while no Stop comes in between, what is owed for the packet or a first part of it; nothing once outdated |
| Pacer.DownlinkPacer.DrainRemaining | internal/session/pacer.go:260-280 | with a Stop possible at every moment: a turn that is ended was not stopped and, under its own generation, was paid in full: tts.start if still due, then all queued packets in order; without a Stop any other run said a first part |
| Pacer.DownlinkPacer.Stop | internal/session/pacer.go:183-190 | flag set, context cancelled, queue empty |
| EndToEnd.CommittedEndToEnd | internal/session/orchestration.go:105-661 | a turn in the history announced exactly the sentences of all chunks of its LLM streams, in order, which carry exactly their non-whitespace runes; it is remembered with the last stream's text; its log holds tts.start, the audible packets of exactly the PCM bytes it read, and tts.stop; the flushed packet is among them if and only if the consumer ended at the end of the PCM |
| EndToEnd.NothingElseIsSaid | internal/session/orchestration.go:105-661 | in any story, failed or aborted turns included, what was announced is a first part of the sentences of the chunks heard, and what was produced are the packets of the blocks read |
| EndToEnd.StoriesAreRuns | internal/session/session.go:485-500 | every story is a run of the session, so every result about runs holds of it |
| EndToEnd.SameBytesSamePackets | internal/session/orchestration.go:557-660 | the same PCM bytes, however cut into blocks, give the same packets, ceil(n / 2880) of them |
| Pacer.FirstPacketAlone | internal/session/pacer.go:296-367 | the nine steps of the first packet, back to back and from any point on, say exactly what the object says |
| Pacer.LaterPacketAlone | internal/session/pacer.go:332-367 | the four steps of any later packet likewise |
| Writer.WrittenInOrder | internal/session/writer.go:100-177 | in every interleaving nothing is sent on the closed channel and it is closed once; written messages are an in-order subsequence of the accepted, and all of them once the loop is done without stop, drain, cancel or write error |
| Writer.NothingAcceptedOnceClosed | internal/session/writer.go:125-144 | once closed nothing is accepted, the first error stays, a writer that is done writes nothing more |
| Writer.CloseClosesExactly | internal/session/writer.go:215-224 | the queue is closed if and only if it was or no sender holds the lock; what is queued stays |
| Writer.AllCanBeWritten | internal/session/writer.go:147-177 | from any state a closed writer can write its whole queue in order and be done |
| Writer.StepKeepsInv | internal/session/writer.go:100-256 | every step keeps the balance of accepted, taken and queued messages and the rest of the invariant |
| Writer.EnqueueAlone | internal/session/writer.go:100-144 | the steps of a sender, back to back, are one call of the object; a message is refused exactly when cancelled, closed or full |
| Writer.WriterObject.Enqueue | internal/session/writer.go:100-144 | the answer and the new queue |
| Writer.WriterObject.DrainPending | internal/session/writer.go:242-256 | the whole queue is dropped, in order, and nothing else changes |
| Writer.WriterObject.WriteLoop | internal/session/writer.go:147-177 | the loop by itself writes a first part of the queue in order, all of it unless cancelled or failing; on leaving the writer is closed, cancelled and empty, and the error of a failed write is the recorded one unless there was one before |
| Writer.WriterObject.Stop | internal/session/writer.go:227-239 | cancelled, closed once, empty |
| AsrQueue.FramesAreHandedInOrder | internal/audio/queue.go:130-171 | in every interleaving the frames given to WritePCM are a prefix of those accepted; the stream's Finish is called at most once and only after all of them, and it is called unless the worker was cancelled or a call failed; no send on a closed channel |
| AsrQueue.NoCallAfterAFailure | internal/audio/queue.go:156-169 | after a failed stream call the worker makes no other |
| AsrQueue.FirstErrorStays | internal/audio/queue.go:139-145 | the first worker error never changes; nothing is accepted after Finish; an exited worker calls nothing |
| AsrQueue.FailuresAreTold | internal/audio/queue.go:139-171 | in every interleaving the recorded error is the cause of the failed stream call if and only if that was no cancellation, and every later Push of an open queue is answered with it |
| AsrQueue.FinishEndsExactly | internal/audio/queue.go:106-117 | the input ends if and only if it had, or the queue is open and no Push is under way |
| AsrQueue.AllCanBeHanded | internal/audio/queue.go:130-171 | from any state whose input has ended the worker can hand over the whole queue in order and finish the stream |
| AsrQueue.FinishDuringPush | internal/audio/queue.go:106-117 | a Finish between the check and the send of a Push panics it, unless the context is cancelled and the select picks that |
| AsrQueue.PushAlone | internal/audio/queue.go:69-104 | a frame is refused exactly when it is empty or the queue is closed, finished, failed, cancelled or full |
| AsrQueue.ASRAudioQueue.Push | internal/audio/queue.go:69-104 | the answer and the new queue |
| AsrQueue.ASRAudioQueue.Work | internal/audio/queue.go:130-171 | the worker by itself hands a first part of the queue to the stream in order and finishes it only after all; the error of a failed call is the recorded one unless there was one before or it is a cancellation |
| AsrQueue.ASRAudioQueue.Finish | internal/audio/queue.go:107-117 | the input ends once |
| AsrQueue.ASRAudioQueue.Close | internal/audio/queue.go:175-187 | closed, and cancelled by the first call |
| Admission.SlotsAreConserved | internal/session/limiter.go:29-47 | in every interleaving the active count is the grants not yet released, within 0 and the maximum; no release runs twice; a connection that is gone gave its slot back |
| Admission.SlotsAreGrantedExactly | internal/session/limiter.go:29-47 | in every interleaving a connection is granted a slot if and only if fewer than the maximum are taken and not given back |
| Admission.OpenMeansRegistered | internal/session/registry.go:90-117 | a session is registered if and only if the registry is open, is then the one its device is mapped to, and goes on to evict exactly the one the device was mapped to |
| Admission.OpenMeansChecked | internal/session/registry.go:74-83 | a connection passes the first check if and only if the registry is open |
| Admission.ShutdownTakesAll | internal/session/registry.go:157-181 | the first Shutdown takes hold of all registered sessions and can close each |
| Admission.EveryoneCanLeave | internal/session/handler.go:130-176 | wherever a connection stands, its own next steps lead it out with the slot it took given back |
| Admission.OneSessionPerDevice | internal/session/registry.go:90-142 | a device is mapped exactly while the session last registered under its key is registered, and to that one; any other registered session with the key was evicted, its Close called or next |
| Admission.LateCleanupKeepsTheNewer | internal/session/registry.go:122-131 | a cleanup unmaps the device exactly when its session is the latest; an evicted session's cleanup leaves every mapping |
| Admission.WaitNeverRises | internal/session/registry.go:96-100 | after shutdown begins nothing is registered and the wait count never rises |
| Admission.ShutdownIsComplete | internal/session/registry.go:157-207 | when the wait is over every session ever registered was removed, gave its slot back and was counted down, and the slots still in use are exactly those held without being registered, so all are free if and only if there is none; until then the rest is among those being closed |
| Admission.SlotTakenAfterShutdown | internal/session/registry.go:74-83 | a run in which a finished shutdown leaves a slot in use |
| Admission.StepKeepsInv | internal/session/handler.go:130-176 | every step of every connection keeps the invariant |
| Admission.SessionLimiter.Acquire | internal/session/limiter.go:29-47 | a grant exactly while below the maximum |
| Admission.Grant.Release | internal/session/limiter.go:38-45 | gives the slot back once |
| Admission.SessionRegistry.Register | internal/session/registry.go:90-117 | the new maps, and whom to evict |
| Admission.SessionRegistry.Remove | internal/session/registry.go:126-131 | the new maps |
| Admission.SessionRegistry.Shutdown | internal/session/registry.go:157-181 | closed; the sessions to close, none the second time |
| TokenBucket.LevelIsLeastWindow | internal/logger/logger.go:244-262 | the tokens a call finds are the least any window leaves, for timestamps in any order |
| TokenBucket.GrantedExactly | internal/logger/logger.go:244-262 | a call is granted if and only if no window that ends with it exceeds the burst plus what was earned |
| TokenBucket.WindowBound | internal/logger/logger.go:244-262 | from call i through a later granted call j at most burst + rate (t_j - t_i) is granted |
| TokenBucket.RefusedWindowsExactly | internal/logger/logger.go:244-262 | all windows that end with a refused call, the one since the bucket was made included, keep the bound if and only if it found no less than nothing; the windows between calls alone decide it when the first call does not come from before the making |
| TokenBucket.WholeAloneExceeded | internal/logger/logger.go:225-254 | otherwise the window since the making can be the only one exceeded |
| TokenBucket.RefusedWindowCanExceed | internal/logger/logger.go:248-261 | the bound fails for a window that ends with a refused call of an earlier timestamp |
| TokenBucket.TokensStayInRange | internal/logger/logger.go:248-254 | with timestamps in order the tokens stay within 0 and the burst |
| TokenBucket.CallInFigures | internal/logger/logger.go:244-262 | a call finds what was left plus rate times the time since, at most the burst; it is granted if and only if that suffices, and only then costs |
| TokenBucket.RateLimiter.constructor | internal/logger/logger.go:219-232 | the defaults, and a full bucket |
| TokenBucket.RateLimiter.AllowN | internal/logger/logger.go:244-262 | the answer and the new bucket |

## Left out

- The goroutines of a turn are values with program counters in `Turn`, not objects, because their interleaving is the point; the objects of `Pacer`, `PcmConsumer` and `Orchestration` show the same code as methods, where other goroutines act between steps. Aliasing between the two views is not captured.
- Pacer.DownlinkPacer.DrainRemaining: the outer select of `Run`, which also waits for more packets, is in `Turn` only.
- Orchestration.Turn.Orchestrate: what a tool call answers is any text, because the MCP exchange behind it is not part of this model; the place of its message among the others on the write queue is in `Turn`.
- SessionObject.Session.OnEvent: the TTS-started event has no sender outside of tests and is left out; handlers are atomic, and a Close from outside runs between them, not inside.
- The generation is unbounded; the 64-bit counter of the code is never near its end.
- The event channel is unbounded: a post is lost only when the session context is done, or when the supervisor posts to itself. Blocking of a full channel is not modelled.
- Turn-finished events are posted by the pacer alone, every other event may be posted by anyone under any generation.
- In `World` the write queue accepts or refuses at will; what it really does is the subject of `Writer`.
- Checks of a context that come before a check of the generation are part of the step they precede; a step may also go on after the context ended, which allows more runs than the code.
- Opus encoding and decoding are an arbitrary function of the frames so far; the limit on the size of a packet is not modelled.
- Timers, ticks and timeouts are events without distances in time; that steps which can be taken are taken is not claimed.
- Registering no session at all and registering one session twice: `ServeHTTP` does neither.
- JSON, header and hello validation, configuration ranges, redaction, logging, the MCP handshake, and the WebSocket, HTTP and cloud clients.
- Write locks are granted as soon as no reader holds the lock; that waiting writers hold up new readers only removes runs.
