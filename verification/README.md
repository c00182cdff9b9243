# Verification of the llmadapter streaming core

llmadapter carries one model response at a time from a provider's wire format, through
provider-neutral unified events, to a client's wire format, and recovers when a stream breaks
on the way. This project models that streaming core in Dafny and proves what it promises.

- **Codex session protocol.** `Continuation` is the table of last responses per (session, branch),
  `Session` the mutex and pooled websocket, `CodexProtocol` one transport shared by any number of
  requests as a state machine, `CodexProtocolProofs` and `CodexTheorems` what holds in every run.
  The server and the network choose freely, except that the server sends nothing of a response after
  the frame that completes it. `CodexRecovery` says what each step does, by what the network does, and
  that every request can be brought to its end. `CodexAffinity` says when a continuation goes to the websocket that had
  the previous response and under which discipline it always does, `CodexAffinityRuns` that no part of
  that discipline can be given up. `CodexBody` is what the transport does to a request
  body before it looks at it. `FallbackStream` and `FallbackTheorems` are the stream handed to a
  request: visible output is held back until a commit frame, and a failed websocket is replaced by a
  fresh one and then by HTTP, the stages of `RecoveryStages`, and the error it ends with is that of
  the source that won.
- **Reassembly of websocket frames.** `Json` has the grammar of RFC 8259 as trees and shows that no
  proper prefix of an object's text is a JSON text; `Reassembly` rests on it.
- **Stream translation.** `Unified` is the event language and `Collect`, which defines what a stream
  means; `Notes` is what it keeps besides message and calls: errors, usage, quotas, warnings, citations
  and raw events. `AnthropicWire` gives Anthropic Messages streams a meaning of their own; `AnthropicDecoder`
  and `AnthropicEndpoint` are the two translations, `AnthropicMeaning` and `AnthropicRoundTrip` their
  correctness, `AnthropicNotes` what they do on every stream, well-formed or not, `StreamedCollected`
  the agreement of streamed and collected answers. `ResponsesWire`,
  `ResponsesDecoder`, `ResponsesEndpoint`, `ResponsesProtocol`, `ResponsesText`, `ResponsesCalls` and
  `ResponsesRoundTrip` do the same for OpenAI Responses; `ResponsesNotes`, `ResponsesReading` and
  `ResponsesAside` say what is read from every sequence received. `ChatTools` demultiplexes the tool-call
  fragments of OpenAI chat completions, `ChatNotes` says what else is read from every sequence of
  chunks, and `ChatIndexes` follows a chat stream through `Collect` and
  the Anthropic endpoint.
- **Plumbing.** `Pipeline`, `EventChain` and `AdaptedStream` are the law of composition for stateful
  processors, for chains of them and for the adapted client's stream; `Coalesce` the text coalescer;
  `Sse` the server-sent events reader and writers, `SseFields` what the lines of an event mean.
- **Choosing and retrying.** `Router`, `Gateway`, `Retry`.

An object whose methods change its fields is a class here, and a method's contract gives its whole
new state and its result as a function of the old state; the theorems are about that function.
Choices the code does not make (what the network delivers, which write fails, how a client behaves,
what time it is) are parameters. Response ids are positions in the server's log, and SHA-256 of a
canonical form is an injective constructor.

`dafny verify dfyconfig.toml` checks everything.

## Findings

Properties one might expect, stated exactly as far as the code has them:

- The continuation sends part of the previous answer to the server a second time unless the answer
  consists of assistant items only. A tool call is sent back as a `function_call` item, which has no role,
  so an ordinary tool turn makes the server's conversation hold the call twice; after an empty input
  nothing is cut off at all. An assistant item the caller adds right after the answer is left out:
  `CodexTheorems.LinkIsExactIff`, `CodexTheorems.AnswersAreSentAgain`, `CodexTheorems.ToolCallsAreSentTwice`.
- `docs/ARCHITECTURE.md:135` has affinity to the server bound to the connection, and `store` is switched
  off. But the transport keeps one websocket for all its sessions, and the table of last responses does not
  know which one a response came from. A turn of another session in between is enough for a shortened input
  to go out on a websocket that never had the previous response (`CodexAffinityRuns.AnotherSessionMoves`). A
  send keeps affinity exactly when the pooled websocket is the previous response's, belongs to the session and
  takes the body (`CodexAffinity.AffineIff`). A caller can rely on it in all runs if and only if it has one
  session and branch, sends no request while another is unfinished, its websockets can be written to and
  completions are commit frames: `CodexAffinityRuns.DisciplineIsExact`.
- `docs/ARCHITECTURE.md:141` lets the next request after a failed websocket replay its history. That holds for
  the session and branch whose request failed; every other one keeps the continuation it was offered, though the
  websocket is gone: `CodexTheorems.NextReplaysIff`, `CodexAffinityRuns.AnotherBranchMoves`.
- Latent: nothing in the transport itself keeps `Close` from calling `CloseLocked` with the mutex already
  given back, though the comment there asks for it. It takes a completion that was no commit frame and a
  body without a fingerprint (`CodexTheorems.CloseNeedsLockIff`). The bodies of the program all have one,
  because the transport fills in the model first, so no run of the program does it:
  `CodexTheorems.ProgramClosesUnderLock`.
- `docs/ARCHITECTURE.md:141` lets a websocket be replaced only before user-visible output, so that no partial
  output is duplicated. The code keeps that promise for text and argument deltas and completions; reasoning
  deltas, `response.content_part.delta` and finished output items pass before the commit and can be seen from two streams: `FallbackTheorems.OneSourceIff`.
- Reassembly loses every message after a websocket frame that holds the end of one message and the
  start of the next: `Reassembly.ComeOutIffAligned`. White space after the last message makes the end
  of the connection look like a break (`Reassembly.DrainIsEvents`).
- A websocket that breaks within a JSON event after visible output looks like the end of the answer: the
  error of an incomplete event wraps `io.EOF`, which the caller takes for a clean end, while without such a
  rest it is replaced by an error of its own. So a truncated answer passes as complete:
  `FallbackTheorems.BreaksAreHiddenIff`.
- The Anthropic decoder has no event for text in a block start, so a message that has some does not come
  back, and `stop_sequence` comes back as `end_turn`: `AnthropicRoundTrip.StartTextSurvivesIff`,
  `AnthropicRoundTrip.StopReasonSurvivesIff`.
- The chat completions decoder gives the text index 0 and tool calls the indexes of their own list, which
  starts at 0 as well. Streamed by the Anthropic endpoint, the call with index 0 never gets its block,
  whether there is text or not; collected, the call is there and the text of the message is lost:
  `ChatIndexes.CallIsStreamedIff`, `ChatIndexes.TextIsCollectedIff`.
- A done call that contradicts what was streamed of it wins in `Collect` and loses in both endpoints:
  `StreamedCollected.AnswersAgreeIff`, `ResponsesCalls.CallsComeBackIff`.
- Both endpoints write the usage into the frame of the completion, so usage told later is lost in a
  streamed answer. The Anthropic and the chat completions decoders tell it after the completion, so the
  usage that comes with an Anthropic stop reason is never written again: `ResponsesRoundTrip.UsageSurvivesIff`,
  `AnthropicNotes.UsageSurvivesIff`, `AnthropicNotes.ReencodedUsageIsLost`.
- A streamed Anthropic answer keeps the id its message was started with, a collected one takes an id the
  completion gives: `StreamedCollected.IdsAgreeIff`.
- The Responses decoder keeps one text block open for all output indexes, so a delta's index may differ
  from that of the open block: `ResponsesProtocol.DeltasStayIff`.
- An unterminated last line is joined to the line before it: `Sse.UnterminatedIff`.
- Coalescing drops empty text deltas. That is invisible as long as text shares no index with another kind
  of block, and can be seen otherwise: `Coalesce.CoalescingIsInvisibleIff`.
- The first retry delay is not capped by MaxBackoff, and a negative MaxRetries returns neither a stream
  nor an error: `Retry.BackoffLawIff`, `Retry.Open`.
- A route counts as exact for its native model even when its own model keeps it from being used. It then
  suppresses dynamic routes, and a request that one of those would serve gets no answer:
  `Router.SuppressionLeavesNoneIff`, `Router.UnusableExactSuppresses`.

## Model

| member | source | states |
|---|---|---|
| `Continuation.HasInputPrefix` | providers/openai/codex/session.go:152-162 | The loop over hashes decides the prefix relation exactly |
| `Continuation.WithPreviousResponseID` | providers/openai/codex/session.go:164-185 | The loops send the input past the remembered one without its leading assistant items, and the body as it is when nothing is continued, it cannot be decoded, or the start is out of range |
| `Continuation.ContinuationManager.Prepare` | providers/openai/codex/session.go:41-71 | The decision for any table and body: a previous response only when model, instructions and input prefix agree and the body differs |
| `Continuation.ContinuationManager.TakeFingerprint` | providers/openai/codex/session.go:123-142 | No fingerprint for a body that cannot be decoded or names no model |
| `Continuation.ContinuationManager.CommitResponse` | providers/openai/codex/session.go:73-92 | The whole new table: one entry replaced, its turn state kept when none is given, nothing for an empty response id |
| `Continuation.ContinuationManager.SetTurnState` | providers/openai/codex/session.go:94-104 | The whole new table: only the turn state of one key changes |
| `Continuation.ContinuationManager.Invalidate` | providers/openai/codex/session.go:106-113 | The whole new table: one key gone |
| `Continuation.OfferedExactlyForExtensions` | providers/openai/codex/session.go:41-92 | A committed response is offered if and only if the new body has the same model and instructions, extends the committed input and is not the same body; the input then starts after the committed one |
| `Continuation.HashPrefixIsItemPrefix` | providers/openai/codex/session.go:144-162 | Comparing hashes is comparing items |
| `Continuation.BranchesAreIndependent` | providers/openai/codex/session.go:41-113 | No table operation on one (session, branch) changes what another is offered |
| `Continuation.OnlyLeadingAssistantsDropped` | providers/openai/codex/session.go:172-181 | Exactly the run of assistant items at the front is dropped |
| `Continuation.ContinuedKeepsCallerItems` | providers/openai/codex/session.go:164-185 | What was remembered and what is sent together hold every caller item of the new input, in order |
| `Continuation.TurnStateIsTheLastTold` | providers/openai/codex/session.go:41-113 | After any sequence of commits, handshakes and invalidations the next request of a branch is given the turn state told last since the branch was forgotten, commits that tell none in between included, and none if none was told |
| `Continuation.OfferIsTheLastCommitted` | providers/openai/codex/session.go:41-113 | After any such sequence what is offered is the response committed last since the branch was forgotten, to just those bodies that extend its request |
| `ResponsesSession.Session.Acquire` | providers/openai/internal/responsesws/session.go:20-26 | Takes the lock and returns an unlock function that was not used |
| `ResponsesSession.Unlock.Call` | providers/openai/internal/responsesws/session.go:20-26 | The first call gives the lock back, every later one does nothing |
| `ResponsesSession.Session.OpenOrWrite` | providers/openai/internal/responsesws/session.go:28-53 | For each outcome of write and dial: which stream is returned, what was written on it, that the pooled stream was closed before another is handed out, and that stream and session id are set together |
| `ResponsesSession.Session.CloseLocked` | providers/openai/internal/responsesws/session.go:55-62 | The pooled stream is closed and forgotten together with its session id |
| `CodexProtocolProofs.StepKeepsInv` | providers/openai/codex/client.go:106-360 | Every step a request, the server or the network can take from a state satisfying the invariant (log, table, pool, websockets, lock) leads to such a state |
| `CodexTheorems.Reachable` | providers/openai/codex/client.go:106-360 | The invariant holds after every run of any requests |
| `CodexTheorems.RebuildsCallerItems` | providers/openai/codex/session.go:164-185 | Following previous_response_id links in a well-linked log and joining the inputs sent gives the request's full input up to assistant items |
| `CodexTheorems.RememberedResponsesRebuild` | providers/openai/codex/session.go:41-92 | In every run: the response the table remembers for a (session, branch) is one whose chain rebuilds the caller items of exactly the request whose hashes the table holds |
| `CodexTheorems.EveryResponseRebuilds` | providers/openai/codex/client.go:216-278 | In every run: the same for every response ever asked for, full replays after recovery included |
| `CodexTheorems.LinkIsExactIff` | providers/openai/codex/session.go:164-194 | For a caller that replays the previous input and answer, the server's conversation equals the caller's input if and only if, after an empty input, the answer was empty, and otherwise all of the answer is by the assistant and what follows it is not |
| `CodexTheorems.ExactLinksReplayExactly` | providers/openai/codex/session.go:152-194 | Along any chain of links that meet that condition the server's conversation is exactly the caller's input |
| `CodexTheorems.AnswersAreSentAgain` | providers/openai/codex/session.go:172-194 | The part of an answer from its first item that is not by the assistant on is in the server's conversation twice |
| `CodexTheorems.ToolCallsAreSentTwice` | providers/openai/responses/codec.go:58-65 | In a tool turn, question, call, result, the server has the call twice |
| `CodexTheorems.LockIsReleasedOnce` | providers/openai/codex/client.go:165-344 | In every run: a request gives the lock back at most once, exactly once when it is over HTTP or finished, and the lock is held by the one request in a locked phase |
| `CodexTheorems.AtMostOneOpenWebSocket` | providers/openai/internal/responsesws/session.go:28-62 | In every run: at most one websocket is open, and it is the pooled one with a session id |
| `CodexTheorems.NoForeignFrames` | providers/openai/codex/client.go:638-718 | In every run, of a server that sends nothing of a response after the frame that completes it: a response frame a request can receive belongs to the response that request asked for last, for its own input |
| `CodexTheorems.NextFrameIsOwnIff` | providers/openai/internal/responsesws/session.go:28-38 | Without that assumption, for one request that takes over the pooled websocket: its first frame is of its own response if and only if nothing was left to read there |
| `CodexTheorems.NothingUnreadIsPooled` | providers/openai/codex/client.go:648-718 | In every run: the step that gives back the lock leaves no pooled websocket unless the response completed and nothing of it is left to read |
| `CodexTheorems.FailureForgetsTheContinuation` | providers/openai/codex/client.go:648-672 | After an unrecovered failure of an incomplete response, a started stream whose websocket closes included, no websocket is pooled, the failed request's session and branch is offered no continuation, and every other one exactly what it was offered before |
| `CodexTheorems.NextReplaysIff` | providers/openai/codex/client.go:196-203 | After such a failure the next request of a session and branch replays if and only if it is the branch that failed or it was offered nothing before |
| `CodexTheorems.StepTouchesOneRequest` | providers/openai/codex/client.go:106-360 | A step changes the fields of the request it is taken for, never its body and no other request |
| `CodexRecovery.FirstSendAsks` | providers/openai/codex/client.go:197-215 | In every run: where the first send goes, for each outcome of write and dial, and that the server is then asked once more, for the continuation decided on arrival; otherwise nothing is sent and the lock is kept |
| `CodexRecovery.LostRequestsReplay` | providers/openai/codex/client.go:289-343 | In every run: a request that lost its first send puts its whole input on a new websocket if one opens, one entry without previous response, reads there with HTTP as the only recovery left and has the lock; otherwise nothing is sent, the lock is free and HTTP is next. Its continuation is forgotten, and no other |
| `CodexRecovery.PendingRequestsOpenHttp` | providers/openai/codex/client.go:345-359 | In every run: such a request is over HTTP if and only if that opens, finished otherwise, and nothing else changes |
| `CodexRecovery.FailedStreamsRecover` | providers/openai/codex/client.go:216-278 | In every run, when a stream fails: whether it is recovered, that a fresh websocket carries the whole input and the server is asked just that once more, and that a recovery that comes to HTTP frees the lock and is over HTTP if and only if that opens |
| `CodexRecovery.FramesAreNoted` | providers/openai/codex/client.go:638-718 | In every run: a frame names the reader's own last response, completes it and commits the stream exactly as it says, and changes nothing else |
| `CodexRecovery.ClosingRemembers` | providers/openai/codex/client.go:702-718 | In every run: closing finishes the request and frees the lock it had; a completed response that was named is offered to just those bodies that extend its request, an incomplete one takes websocket and continuation with it |
| `CodexRecovery.LostRequestsAreAnswered` | providers/openai/codex/client.go:289-336 | After any run: a lost request for which a websocket opens and the server answers is closed with that response remembered, and the server was sent exactly its input |
| `CodexRecovery.LostRequestsGoOverHttp` | providers/openai/codex/client.go:289-359 | After any run: when none opens it is answered over HTTP, with nothing asked, remembered or pooled |
| `CodexRecovery.EveryRequestCanFinish` | providers/openai/codex/client.go:165-359 | After any run every request, one that waits for the lock included, can be brought to its end by its own steps and those of the one that has the lock, and no finished one is started over |
| `CodexRecovery.EverybodyCanFinish` | providers/openai/codex/client.go:165-359 | After any run there is a continuation in which all requests are finished: the lock never stays taken |
| `CodexTheorems.BadRunClosesUnlocked` | providers/openai/codex/client.go:216-278 | A concrete run that calls CloseLocked without the lock, for every body without a fingerprint |
| `CodexTheorems.CloseNeedsLockIff` | providers/openai/internal/responsesws/session.go:55-62 | CloseLocked runs only under the lock in all runs of requests with a body if and only if the body has a fingerprint |
| `CodexTheorems.ProgramClosesUnderLock` | providers/openai/codex/client.go:216-278 | In every run whose requests carry bodies the program marshals and mutates, CloseLocked runs only under the lock |
| `CodexBody.MutateCodexBody` | providers/openai/codex/client.go:434-469 | The mutated body: model and instructions filled in when missing or blank, the input kept, the fields the backend does not take handed to a parameter, a body that cannot be decoded left alone |
| `CodexBody.MutatedBodiesHaveFingerprints` | providers/openai/codex/client.go:446-451 | A mutated body has a fingerprint if and only if it can be decoded; before the mutation only if it names a model too |
| `CodexAffinity.ContinuesInPlaceIff` | providers/openai/internal/responsesws/session.go:28-53 | After any run, for a send that continues a response and finds or opens a websocket: it is the websocket of that response if and only if that one is pooled for the session and takes the body |
| `CodexAffinity.AffineIff` | providers/openai/codex/client.go:181-204 | For every run: every continuation went to the websocket of the response it continues if and only if each time a websocket was found or opened for one, that condition held |
| `CodexAffinity.StepQueues` | providers/openai/codex/client.go:106-360 | Each step under the discipline keeps what a serial caller of one branch relies on: what the table remembers and what a waiting request was offered is on the pooled websocket |
| `CodexAffinity.DisciplineKeepsAffinity` | providers/openai/codex/client.go:106-360 | In every run with one session and branch, no request arriving while another is unfinished, websockets that can be written to and completions that are commit frames, every continuation goes where it belongs |
| `CodexAffinityRuns.TurnRuns` | providers/openai/codex/client.go:165-278 | What a whole turn, completed or failed, does from any state in which the lock is free: its one entry, its websocket, the pool and the table |
| `CodexAffinityRuns.AnotherSessionMoves` | providers/openai/internal/responsesws/session.go:28-53 | Three complete turns of two sessions, for any bodies: the third continues the first on a websocket that never had it |
| `CodexAffinityRuns.AnotherBranchMoves` | providers/openai/codex/client.go:196-203 | Three turns of two branches of one session, the second of which fails: the third continues the first on a new websocket |
| `CodexAffinityRuns.AnotherRequestMoves` | providers/openai/codex/client.go:144-204 | A request of the same branch that waits for the lock while another one fails continues on a new websocket what it was offered on arrival |
| `CodexAffinityRuns.NoWriterMoves` | providers/openai/internal/responsesws/session.go:28-53 | A pooled websocket that cannot be written to is replaced and the continuation sent on the new one |
| `CodexAffinityRuns.NoCommitMoves` | providers/openai/codex/client.go:216-278 | A response that completes without a commit frame on a websocket lost afterwards is remembered, and continued on a new one |
| `CodexAffinityRuns.DisciplineIsExact` | providers/openai/codex/client.go:106-360 | Affinity holds in all runs that keep some parts of the discipline if and only if those are all four parts |
| `FallbackStream.FallbackByteStream.Recover` | providers/openai/codex/client.go:216-278 | The staged recovery: a fresh websocket, then HTTP, then nothing, each with the fields it leaves or the failures joined |
| `FallbackStream.FallbackByteStream.Receive` | providers/openai/codex/client.go:775-822 | One call of Recv, its loop included: the answer and the whole new state for every state and network |
| `FallbackTheorems.RecvMakesProgress` | providers/openai/codex/client.go:775-822 | Every delivery leaves fewer recoveries or less to deliver, and the recovery stage never goes back |
| `FallbackTheorems.DrainIsTranscript` | providers/openai/codex/client.go:775-822 | All that a reader sees, from the first call to the first error, is a transcript defined without buffer and flags |
| `FallbackTheorems.DrainEnds` | providers/openai/codex/client.go:791-806 | The error after it is the one the sources and recoveries decide, defined without buffer and flags: the end of the websocket that committed or failed in another way, of HTTP, or all failures joined when no recovery opens |
| `FallbackTheorems.CommittedStreamsEndAsTheirSource` | providers/openai/codex/client.go:775-822 | Once metadata was delivered the stream ends as the one source ends that the later frames come from |
| `FallbackTheorems.BreaksAreHiddenIff` | providers/openai/codex/client.go:648-662 | A websocket that breaks after a commit frame is taken for a clean end by a reader that asks for io.EOF if and only if the connection reports io.EOF and the response was complete or text of an incomplete event was left |
| `FallbackTheorems.UnrecoveredErrorsHaveAllCauses` | providers/openai/codex/client.go:216-278 | When nothing committed and no recovery opens, the error has in it the websocket's failure and that of each recovery tried |
| `FallbackTheorems.TranscriptShape` | providers/openai/codex/client.go:775-822 | Uncommitted frames first, then one metadata frame, then frames of one source only |
| `FallbackTheorems.CommitFramesSettleTheStream` | providers/openai/codex/client.go:775-822 | After a commit frame was delivered the stream is never replaced, all commit frames come from one source, and metadata comes exactly once, before them |
| `FallbackTheorems.AtMostTwoRecoveries` | providers/openai/codex/client.go:216-278 | Sources are delivered in the order they were opened, and there are at most three |
| `FallbackTheorems.HeldTypesAreFromOneSource` | providers/openai/codex/client.go:849-863 | Frames of commit types and of types ignored before the commit all come from one source |
| `FallbackTheorems.OtherTypesCanRepeat` | providers/openai/codex/client.go:849-863 | Every other type can be delivered from two sources, by a concrete run |
| `FallbackTheorems.OneSourceIff` | providers/openai/codex/client.go:849-863 | A set of frame types always comes from one source if and only if each of them is a commit type or ignored before the commit |
| `FallbackTheorems.ReasoningAndItemsCanRepeat` | providers/openai/codex/client.go:849-863 | Reasoning deltas and finished output items can be delivered from two sources |
| `Json.NoEarlyStop` | providers/openai/responses/websocket.go:168-197 | No proper prefix of a JSON object's text is a JSON text (section 4 of RFC 8259), for the whole grammar of values, strings, escapes and numbers |
| `Reassembly.WebSocketResponseStream.Receive` | providers/openai/responses/websocket.go:168-197 | One call of Recv: metadata first, then chunks gathered until they make JSON, and how the end of the connection is reported |
| `Reassembly.DrainIsEvents` | providers/openai/responses/websocket.go:168-197 | Everything the stream answers is its completed events and then the end, clean exactly when nothing is pending |
| `Reassembly.OneMessage` | providers/openai/codex/client.go:674-700 | However one object with white space around it is cut into chunks, it comes out once and unchanged |
| `Reassembly.MessagesComeOut` | providers/openai/codex/client.go:674-700 | Any sequence of messages, each cut into chunks of its own in any way, comes out once each, unchanged and in order |
| `Reassembly.NothingMoreComesOut` | providers/openai/codex/client.go:674-700 | Once text of a second message follows a message in what is pending, nothing comes out any more |
| `Reassembly.ComeOutIffAligned` | providers/openai/codex/client.go:674-700 | Messages sent back to back and cut anywhere come out if and only if no frame holds the end of one message and more |
| `Unified.Collect` | unified/response.go:23-170 | The loop over maps of buffers returns exactly one of the responses of the event semantics, stopped at the first error, blocks left open being flushed in some order |
| `Unified.FlushOpen` | unified/response.go:69-72 | The leftover blocks are flushed in an order that lists each open index once |
| `Unified.GatherEvent` | unified/response.go:33-160 | The switch, one buffer or field at a time, makes the state the event semantics gives |
| `Notes.CollectedNotes` | unified/response.go:73-170 | Whatever Collect returns for a stream: the error is the first one, quotas, warnings, citations and raw events are those told before it, in order, and usage and finish reason the ones told last |
| `Notes.BlocksAddTheirDeltas` | unified/response.go:33-68 | A block opened and closed adds the text of its deltas in order, as text, refusal, or reasoning with its signature; an empty one adds nothing |
| `AnthropicDecoder.EventDecoder.Push` | providers/anthropic/messages/decoder.go:31-57 | Events and whole new state for every wire event |
| `AnthropicDecoder.EventDecoder.ContentBlockStart` | providers/anthropic/messages/decoder.go:66-95 | The block's kind is remembered, a tool's id, name and input too, placeholders counting as no input |
| `AnthropicDecoder.EventDecoder.ContentBlockDelta` | providers/anthropic/messages/decoder.go:97-114 | Each kind of delta as its event, a tool's input being gathered |
| `AnthropicDecoder.EventDecoder.ContentBlockStop` | providers/anthropic/messages/decoder.go:116-138 | The tool is done with what was gathered and forgotten, other blocks are done by kind |
| `AnthropicNotes.ErrorsComeThrough` | providers/anthropic/messages/decoder.go:50-51 | On every stream, well-formed or not: the error decoded is that of the first error frame, none if there is none, and the events before it are those of the stream cut there |
| `AnthropicNotes.CollectedErrors` | providers/anthropic/messages/decoder.go:31-57 | So Collect ends with an error if and only if the stream has an error frame, with the first one's, and has gathered what the stream before it says |
| `AnthropicNotes.NotesComeThrough` | providers/anthropic/messages/decoder.go:31-57 | Usage, quotas, raw events and errors decoded are exactly those of the frames, in order |
| `AnthropicNotes.CollectedFromFrames` | providers/anthropic/messages/decoder.go:31-57 | Whatever Collect returns for a decoded stream has the usage, quotas and raw events of the frames before the first error frame, in order, and its error |
| `AnthropicNotes.TextComesThrough` | providers/anthropic/messages/decoder.go:97-114 | On every stream the text and the thinking decoded at an index are those of its frames, in order |
| `AnthropicEndpoint.StreamState.Push` | endpoints/anthropicmessages/codec.go:446-534 | Frames and whole new state for every unified event |
| `AnthropicEndpoint.StreamState.OpenBlock` | endpoints/anthropicmessages/codec.go:536-561 | A block is opened once, with the id and name known |
| `AnthropicEndpoint.StreamState.CloseBlock` | endpoints/anthropicmessages/codec.go:563-570 | Only an open block is closed |
| `AnthropicNotes.UsageIsWritten` | endpoints/anthropicmessages/codec.go:512-530 | Whatever is told afterwards, one stop reason is written, that of the first completion, and with it the usage told last before it |
| `AnthropicNotes.UsageSurvivesIff` | endpoints/anthropicmessages/codec.go:512-530 | That is the usage of the whole answer if and only if no other is told after the completion |
| `AnthropicNotes.ReencodedUsageIsLost` | providers/anthropic/messages/decoder.go:144-161 | A stream decoded and written again has its stop reason without the usage that came with it, whatever else is in the stream, usage told before the stop reason excepted |
| `AnthropicEndpoint.ContentBlocksFromResponse` | endpoints/anthropicmessages/codec.go:313-337 | Text and thinking first, then tool calls, an empty input written as {} |
| `AnthropicMeaning.EncodeMeans` | endpoints/anthropicmessages/codec.go:446-570 | The frames for one event do to a reader's message what the event means, and the encoder keeps knowing the message |
| `AnthropicMeaning.EncodeAllMeans` | endpoints/anthropicmessages/codec.go:400-570 | The streamed frames rebuild what the events mean, for every stream that uses an index for one block of one kind |
| `AnthropicRoundTrip.DecodeAllMeans` | providers/anthropic/messages/decoder.go:31-161 | The decoder's events mean what the wire events describe |
| `AnthropicRoundTrip.RoundTripKeepsTheMessage` | providers/anthropic/messages/decoder.go:31-161 | Decoded and streamed again, a well-formed stream describes the same message: id, model, blocks in order with equal contents, openings and closings, and the mapped stop reason |
| `AnthropicRoundTrip.CompleteMessagesComeBackUnchanged` | endpoints/anthropicmessages/codec.go:446-570 | With end_turn, max_tokens or tool_use a complete message comes back unchanged in every respect |
| `AnthropicRoundTrip.StopReasonSurvivesIff` | providers/anthropic/messages/decoder.go:199-210 | A stop reason survives the two tables if and only if it is end_turn, max_tokens, tool_use or unknown |
| `AnthropicRoundTrip.StartTextSurvivesIff` | providers/anthropic/messages/decoder.go:66-95 | For every well-formed stream the message comes back, up to the mapped stop reason, if and only if no text block starts with text |
| `AnthropicRoundTrip.EncodedBlocksOpenAndCloseOnce` | endpoints/anthropicmessages/codec.go:446-570 | Whatever events that use an index for one block the endpoint is given, its frames open each block once and close it at most once, after it was opened |
| `AnthropicRoundTrip.ReencodedBlocksOpenAndCloseOnce` | endpoints/anthropicmessages/codec.go:536-570 | So do the frames of every well-formed stream decoded and streamed again, with text in block starts or not |
| `StreamedCollected.EventAgrees` | endpoints/anthropicmessages/codec.go:446-534 | Each event of a stream of sequential blocks keeps the collector and the streamed message in agreement, the open block included, and their calls equal exactly as long as done calls confirm what was streamed |
| `StreamedCollected.LeftoversAgree` | unified/response.go:69-72 | Flushing leftover blocks in any order changes nothing that the endpoint shows |
| `StreamedCollected.AnswersAgreeIff` | unified/response.go:121-151 | Streamed or collected, an answer has the same content blocks, as many tool calls and the same stop reason; its tool calls are the same if and only if no done call contradicts the id, name or arguments streamed before it |
| `StreamedCollected.StreamedAnswerIsTheCollectedOne` | endpoints/anthropicmessages/codec.go:59-68 | The message rebuilt from the streamed frames and the one built from any response Collect may return then have the same content blocks, tool calls and stop reason, up to empty blocks and tool calls being listed last |
| `StreamedCollected.IdsAgreeIff` | unified/response.go:77-156 | For every stream without errors the two answers have the same model, and the same id if and only if the last event that names the message gives it the id of its last start |
| `ChatIndexes.CallIsStreamedIff` | providers/openai/chatcompletions/codec.go:256-283 | For every chat stream of one answer, chunks after its finish that add nothing (the usage chunk) included, the Anthropic endpoint opens a tool block for a call if and only if the call was announced and its index is not 0 |
| `ChatIndexes.TextIsCollectedIff` | providers/openai/chatcompletions/codec.go:256-299 | For every such stream Collect returns exactly the text as content if there is any and no announced call has index 0, and nothing otherwise; it returns calls with exactly the announced indexes |
| `ResponsesDecoder.StreamDecoder.Push` | providers/openai/responses/codec.go:316-402 | Events and whole new state for every parsed wire event, errors and identification included |
| `ResponsesDecoder.StreamDecoder.PushType` | providers/openai/responses/codec.go:332-402 | Events and whole new state for each type of event |
| `ResponsesDecoder.StreamDecoder.BeginToolCall` | providers/openai/responses/codec.go:449-475 | A call is started once and never after it was done; ids and names are still updated |
| `ResponsesDecoder.StreamDecoder.EndToolCall` | providers/openai/responses/codec.go:477-499 | A call is done once, with the arguments given or those kept |
| `ResponsesDecoder.StreamDecoder.End` | providers/openai/responses/codec.go:519-538 | Start if missing, close the text block, usage, done and completed, stop becoming tool_call after a done call |
| `ResponsesDecoder.SendUntilCompletion` | providers/openai/responses/client.go:144-151 | Events are sent on up to and with the first completion |
| `ResponsesDecoder.ReadAllEvents` | providers/openai/responses/client.go:121-153 | The reading loop emits exactly the reference run: every event until the stream ends, fails or completes |
| `ResponsesNotes.TextAndReasoningAreRead` | providers/openai/responses/codec.go:372-378 | For every sequence received and every output index: the text and the reasoning read are those of the frames up to the end of the reading, in order, erroneous ones left out |
| `ResponsesNotes.NotesAreRead` | providers/openai/responses/codec.go:311-402 | For every sequence received: usage, quotas, executions, citations, raw events and errors read are exactly those of these frames, in order, and at the end the failure of the stream if that ended the reading |
| `ResponsesNotes.ErrorIsRead` | providers/openai/responses/client.go:130-153 | The error collected is that of the first erroneous frame before the end, or the failure of the stream |
| `ResponsesReading.CallsAreRead` | providers/openai/responses/codec.go:449-499 | For every sequence received and every output index: one done call if a frame says so, with the arguments of the first that does and the id and name given last up to there, and none otherwise |
| `ResponsesReading.CompletionIsRead` | providers/openai/responses/codec.go:519-538 | A reading that comes to a final frame ends with the message done and completed under the id and phase given last; the reason is length, unknown, tool_call after a done call, or stop |
| `ResponsesProtocol.EveryRunObeys` | providers/openai/responses/client.go:121-153 | For every input whatever, malformed and repeated frames included, the consumer's protocol holds |
| `ResponsesProtocol.StartsAndEndsAreSingle` | providers/openai/responses/codec.go:432-538 | In every run: one message start, one completion and nothing after it, and for each tool index one start, one done and no start after the done |
| `ResponsesProtocol.TextBlocksAlternate` | providers/openai/responses/codec.go:386-394 | In every run: a text block is closed, with its index, before the next opens and before the completion |
| `ResponsesProtocol.DeltasStayIff` | providers/openai/responses/codec.go:440-447 | For every sequence received: every text delta has the index of the open text block if and only if every piece of text that arrives while a block is open has the output index of the frame that opened it |
| `ResponsesProtocol.DeltasMayStray` | providers/openai/responses/codec.go:372-375 | Two pieces of text one after the other stay in the open block if and only if they have one output index |
| `ResponsesEndpoint.StreamState.Push` | endpoints/openairesponses/codec.go:404-470 | Frames and whole new state for every unified event |
| `ResponsesEndpoint.StreamState.BeginTextPart` | endpoints/openairesponses/codec.go:490-499 | The text part is announced once |
| `ResponsesEndpoint.StreamState.BeginToolCall` | endpoints/openairesponses/codec.go:501-516 | A call is announced once |
| `ResponsesEndpoint.StreamState.EndToolCall` | endpoints/openairesponses/codec.go:518-539 | The first done of a call is written, with streamed arguments before given ones |
| `ResponsesText.TextComesBack` | endpoints/openairesponses/codec.go:404-539 | For every stream without errors and from any state of encoder and decoder, the text decoded is the text encoded |
| `ResponsesCalls.EventLinks` | providers/openai/responses/codec.go:449-499 | Each event keeps encoder, decoder and the collectors on both sides linked at every index, their calls equal exactly as long as the arguments of done calls agree with the streamed ones |
| `ResponsesCalls.ArgumentsSurviveIff` | endpoints/openairesponses/codec.go:526-537 | When a started call is done the two collectors end with equal calls if and only if they had equal ones and its arguments agree with the streamed ones, or one of them is empty |
| `ResponsesCalls.LoneDoneLinks` | providers/openai/responses/codec.go:477-499 | A call that is done without having been started comes back as a start and an end, and is collected the same on both sides |
| `ResponsesCalls.CallsComeBackIff` | providers/openai/responses/codec.go:332-402 | Collecting the decoded stream gives as many calls as collecting the encoded one, and the same ones (order, index, id, name, arguments) if and only if the arguments of every done call agree with those streamed before |
| `ResponsesRoundTrip.WholeAnswerComesBack` | providers/openai/responses/client.go:121-153 | A whole answer, with what decoders send after its completion, written by the endpoint and read by the client's loop has the same text and as many calls, and the same calls if and only if their arguments agree with the streamed ones |
| `ResponsesRoundTrip.NothingIsReadAfterwards` | providers/openai/responses/client.go:144-151 | Whatever the endpoint is given after the completion, the client reads the same |
| `ResponsesRoundTrip.FinishReasonSurvivesIff` | endpoints/openairesponses/codec.go:350-357 | Whatever is sent after the completion, the stream read ends with one completion, whose reason is the one sent if and only if it is length, stop without a done call, or tool_call with one |
| `ResponsesRoundTrip.UsageSurvivesIff` | endpoints/openairesponses/codec.go:456-467 | The usage collected is the one told last before the completion, and that of the whole answer if and only if no other is told afterwards |
| `ResponsesRoundTrip.MessageStartComesBack` | endpoints/openairesponses/codec.go:406-412 | Whatever follows, the client's first event starts the message with the id and model it was started with |
| `ResponsesAside.CitationsComeBack` | endpoints/openairesponses/codec.go:433-455 | Of all that is no text and no call the client reads the citations sent before the completion, in order, and the usage told last before it; of quotas, warnings, raw events and executions nothing |
| `ChatTools.StreamDecoder.Push` | providers/openai/chatcompletions/codec.go:233-309 | Events and whole new state for every parsed chunk |
| `ChatTools.StreamDecoder.PushFragment` | providers/openai/chatcompletions/codec.go:264-284 | One fragment: the first with an id or name starts the call, arguments are gathered and streamed |
| `ChatTools.StreamDecoder.FinishToolCalls` | providers/openai/chatcompletions/codec.go:365-388 | The loop finishes the started calls in ascending index and deletes them from every map |
| `ChatTools.RunRemembers` | providers/openai/chatcompletions/codec.go:261-284 | In every interleaving of fragments and finishes the maps hold, for each index, what the list of its fragments since its last finish says |
| `ChatTools.FinishDemultiplexes` | providers/openai/chatcompletions/codec.go:365-388 | After any steps a finish says one done call per announced index, ascending, with the in-order concatenation of its arguments and its last id and name, and nothing of those calls stays |
| `ChatTools.FragmentsStreamOnce` | providers/openai/chatcompletions/codec.go:261-284 | Each announced index gets one start, others none, and the streamed arguments add up to the call's |
| `ChatTools.InterleavingIsIrrelevant` | providers/openai/chatcompletions/codec.go:365-388 | Fragments interleaved differently, each index keeping its order, end in the same done calls |
| `ChatTools.StopIsToolCallIff` | providers/openai/chatcompletions/codec.go:285-296 | A stop is reported as tool_call if and only if calls were announced and not yet done |
| `ChatNotes.TextIsRead` | providers/openai/chatcompletions/codec.go:256-259 | For every sequence of chunks the text read is that of all their choices, in order |
| `ChatNotes.NotesAreRead` | providers/openai/chatcompletions/codec.go:233-309 | Usage and errors read are those of the chunks, in order |
| `ChatNotes.ErrorsAreRead` | providers/openai/chatcompletions/codec.go:246-248 | The error is that of the first chunk that has one, and the events before it are those of the chunks before |
| `ChatNotes.CompletionsAreRead` | providers/openai/chatcompletions/codec.go:285-297 | Each finished choice completes the answer once, in order, with its reason, or as tool_call when that was stop |
| `Pipeline.ThenIsStaged` | pipeline/chain.go:13-65 | For any two stateful processors that may fail: event by event through both, then closed in turn, is the second on the complete output of the first, with the same states and the same failures |
| `EventChain.ThroughConcat` | pipeline/chain.go:48-65 | A batch through the chain is its parts through the chain one after the other |
| `EventChain.Chain.PushThrough` | pipeline/chain.go:48-65 | The nested loops with their early stop put out, and leave in the states, what the remaining processors make of the values |
| `EventChain.Chain.Push` | pipeline/chain.go:13-30 | One event through all processors: output and states, nothing when a processor fails |
| `EventChain.Chain.Close` | pipeline/chain.go:32-46 | Each processor closed in turn, its last output going through the later ones |
| `EventChain.EventByEventIsStaged` | pipeline/chain.go:13-65 | For any processors, states and events: the chain's pushes and close equal each processor's complete output fed to the next, final states and failures included |
| `EventChain.NoPushAfterClose` | pipeline/chain.go:32-65 | In every run, whether it succeeds or fails, no processor is pushed or closed after its own close; a run that succeeds has closed every processor |
| `AdaptedStream.PushUnified` | providers/anthropic/messages/adapted.go:168-178 | Events pushed through the chain one by one, all of their output |
| `AdaptedStream.Deliver` | providers/anthropic/messages/adapted.go:139-155 | Provider events decoded and pushed on one by one, what was emitted before a failure included |
| `AdaptedStream.CloseStages` | providers/anthropic/messages/adapted.go:88-131 | The end of the input: provider chain, decoder and unified chain closed in turn, each last output going through the later stages |
| `AdaptedStream.Stream` | providers/anthropic/messages/adapted.go:50-158 | The whole receive loop: what is emitted after the warnings and whether it ends in an error, for any processors, decoder and input |
| `AdaptedStream.StreamIsStageByStage` | providers/anthropic/messages/adapted.go:50-158 | What the loop emits equals the unified chain on the whole output of the decoder on the whole output of the provider chain, and it ends in an error exactly when one of those fails |
| `Coalesce.TextCoalescer.Push` | pipeline/coalesce.go:16-36 | Output and buffers for every event |
| `Coalesce.TextCoalescer.FlushAll` | pipeline/coalesce.go:51-65 | Buffers flushed in ascending index, empty ones left alone |
| `Coalesce.CoalescedIsWhole` | pipeline/coalesce.go:16-40 | As a processor of a chain it puts out what the theorems speak of |
| `Coalesce.CoalescingIsInvisible` | pipeline/coalesce.go:16-65 | For every stream whose empty deltas, if any, are at indexes used for text only, errors included, Collect may return the same responses and errors with and without coalescing |
| `Coalesce.CoalescingIsInvisibleIff` | pipeline/coalesce.go:23-45 | Given the kinds of block allowed at each index, coalescing is invisible for all streams that keep to them if and only if no index is allowed both text and another kind |
| `Coalesce.TextIsConserved` | pipeline/coalesce.go:16-65 | For every stream and index: the same bytes of text in the same order, none moved past an event that is no text |
| `Coalesce.BuffersStaySmall` | pipeline/coalesce.go:23-35 | In every run every buffer is shorter than MaxBytes between pushes |
| `Coalesce.NothingStays` | pipeline/coalesce.go:38-49 | The close leaves no text behind, and after a stream without empty deltas no buffer |
| `Sse.SSEReader.Next` | transport/sse.go:27-67 | The byte loop returns the next block and leaves the rest of the input |
| `Sse.ReadingIsByLines` | transport/sse.go:27-67 | For every input the blocks are those its lines make |
| `Sse.ReadingIsGrouping` | transport/sse.go:27-67 | Terminated input: the maximal runs of non-empty lines, joined by LF |
| `Sse.UnterminatedIff` | transport/sse.go:33-41 | A rest without line end is read as a line of its own if and only if it is empty or follows an empty line or nothing |
| `Sse.LineEndsDoNotMatter` | transport/sse.go:43-54 | The same lines printed with LF, CR, CR LF or a mix in which no CR meets the LF of an empty line are read as the same blocks |
| `Sse.ParseSSEFrame` | transport/sse.go:69-100 | The loop over lines, comments, fields and the retry error included |
| `SseFields.FieldsAreRead` | transport/sse.go:69-100 | A frame of any lines is read as meant: data lines joined by LF in order, the last event, id and retry time, one space after the colon dropped, comments and unknown fields without effect |
| `SseFields.OnlyRetriesFail` | transport/sse.go:88-93 | A frame is an error if and only if it has a retry line that is no number |
| `SseFields.StreamsAreRead` | transport/sse.go:27-100 | Any frames written with LF, CR, CR LF or an unambiguous mix are read as they are meant, one after the other |
| `SseFields.RetryTimesAreRead` | transport/sse.go:88-93 | Every retry time of 63 bits is read as the number it is written as |
| `Sse.FramesComeBack` | endpoints/anthropicmessages/codec.go:587-594 | Any sequence of frames printed with or without an event line is read back as the same events and data |
| `Router.CapabilityMismatch` | router/router.go:252-292 | No reason is given if and only if the capabilities suffice for the request |
| `Router.BetterIsLexicographic` | router/router.go:227-250 | Weight decides, then the source API when the request names none, then priority |
| `Router.BetterIsStrictWeak` | router/router.go:227-237 | The comparison is a strict weak order |
| `Router.OrderIsUnique` | router/router.go:159-167 | There is only one list of the eligible routes in that order with declaration order on ties |
| `Router.StaticRouter.HasExactRoute` | router/router.go:179-189 | The loop finds an exact route if and only if there is one |
| `Router.StaticRouter.Candidates` | router/router.go:118-157 | Exactly the eligible routes in declaration order, unless a matching one has no client |
| `Router.StaticRouter.SortStable` | router/router.go:159-161 | The same routes, sorted, ties in declaration order |
| `Router.StaticRouter.Routes` | router/router.go:118-177 | The answer is that list, each route resolved; an error exactly when a matching route has no client or none is eligible |
| `Router.AnswersCarryWhatWasChecked` | router/router.go:134-157 | Every route of an answer carries the capabilities and metadata that suffice for the request; what its resolver gives comes before what it declares, its native model before the requested one |
| `Router.NoDynamicBesideExact` | router/router.go:121-125 | A dynamic route never appears when a route names the model exactly |
| `Router.SuppressionLeavesNoneIff` | router/router.go:118-189 | When some route would do but for the rule on dynamic routes, the answer is empty if and only if a route counts as exact and all routes that would do are dynamic |
| `Router.UnusableExactSuppresses` | router/router.go:129-189 | A route that matches by its native model but not by its model leaves a usable dynamic route unanswered |
| `Gateway.HealthTracker.Unhealthy` | gateway/health.go:41-56 | Whether the route is cooling, and the table without an expired entry |
| `Gateway.HealthTracker.MarkFailure` | gateway/health.go:20-30 | The whole new table |
| `Gateway.HealthTracker.MarkSuccess` | gateway/health.go:32-39 | The whole new table |
| `Gateway.CoolingIsLastFailure` | gateway/health.go:20-56 | After any marks and questions a route is cooling if and only if its last mark is a failure less than the cooldown ago |
| `Gateway.OrderByHealth` | gateway/http.go:80-95 | What is returned is the router's routes, each once: healthy ones before cooling ones, and each group in router order; the tracker after the questions |
| `Gateway.HealthyFirst` | gateway/http.go:80-95 | The order tried is a permutation of the router's in which no cooling route precedes a healthy one |
| `Gateway.OrderedKeepsOrder` | gateway/http.go:80-95 | There is a one-to-one map from the positions of the order to the router's that keeps the route, rises within each group and puts healthy routes first |
| `Gateway.TryRoutes` | gateway/http.go:43-73 | The loop makes exactly the attempts of the reference, what all of them write in order and the tracker's marks |
| `Gateway.ServeHTTP` | gateway/http.go:28-78 | The routes tried are a prefix of the ordered ones, the body is what all attempts and then the error write, there is an error exactly when no attempt answered, and the tracker holds the marks of the attempts |
| `Gateway.OneSource` | gateway/http.go:28-110 | Of all that is written, by every attempt and by the error, any two chunks come from one attempt or both from the error, and a positive limit bounds the attempts |
| `Gateway.EarlierAttemptsAreSilent` | gateway/http.go:54-70 | No attempt before the last one succeeded or wrote anything |
| `Gateway.HandlerGoesOn` | gateway/http.go:45-78 | Every attempt but the last could be repeated; after the last either it could not, the limit is reached or no route is left |
| `Gateway.MarksAreOutcomes` | gateway/http.go:52-72 | The tracker remembers of a route how the last attempt on it went: a failure with its time, or nothing |
| `Gateway.UntriedAreKept` | gateway/health.go:20-39 | Attempts on other routes leave what is known of a route alone |
| `Retry.Open` | transport/retry.go:46-85 | At most MaxRetries+1 attempts with the same body, which of them is the last, each delay, and the answer; neither stream nor error for negative MaxRetries |
| `Retry.DefaultRetriesIff` | transport/retry.go:106-121 | The default transport tries again if and only if the attempt is not the third, the wait is not cancelled, and it failed with 429, 500, 502, 503 or 504 or without a status |
| `Retry.DelayLaw` | transport/retry.go:98-104 | The wait after attempt k is what the server asks for if it does, else Initial * 2^k, at most Max after the first |
| `Retry.LaterBackoffs` | transport/retry.go:79-82 | From the second attempt on the backoff is min(Initial * 2^k, Max) |
| `Retry.BackoffLawIff` | transport/retry.go:57-82 | All backoffs follow that law if and only if Initial is at most Max |
| `Retry.WaitingIsBounded` | transport/retry.go:57-104 | Without Retry-After the delays add up to at most MaxRetries * Max |
| `Retry.DefaultWaiting` | transport/retry.go:123-130 | The default transport waits at most 300 milliseconds in all unless the server asks for other times |

## Left out

- The fields of `codexTransport.Open`, `sseWrappedByteStream` and their recovery closure as a class: steps of other requests come between theirs, so `CodexProtocol` models them as steps of a state machine over values; the session, the continuation table and the fallback stream are also classes of their own.
- The pass-through of `RetryTransport.Open` when its mode is not before_stream or there is no request, and the defaults its constructor fills in.
- Sockets, HTTP, TLS, compression, AWS signing, the quota frames of the Codex handshake and the mapping of rate-limit frames to quota events: the network is a free choice of outcomes.
- OAuth, token files, quota headers, the model catalogue, configuration, command line, proxy and reports.
- JSON marshalling, the request encoders and the pending-JSON reassembly inside the Responses decoder: wire events are datatypes, and a frame that cannot be parsed is an error of the stream. Reassembly is modelled for the websocket streams.
- Token accounting and the mapping of citation fields: usage is one opaque value, and stays out of the Anthropic round trip.
- CodexTheorems.NoForeignFrames: for a server that sends nothing of a response after the frame that completes it; `CodexTheorems.NextFrameIsOwnIff` says what the next request would read otherwise.
- Context cancellation and goroutine scheduling, except where a wait may be cancelled (`Retry.Open`) and where another goroutine may change the continuation table between the parts of a step (`CodexProtocol`).
- Integer widths: indexes, durations and weights are unbounded, so a backoff of more than half the range of int64 and a difference of weights that overflows are not modelled.
- The reason texts of routes skipped by the router: only their number is kept.
- Router.StaticRouter.SortStable: models the library's stable sort as an insertion sort, proved against the order and not against the library.
- Reassembly.OneMessage: relies on json.Valid accepting the grammar of RFC 8259; the trimming of the model knows ASCII white space, U+0085 and U+00A0 but no other Unicode space.
- EventChain.Chain.Push: shares one loop with pushThrough, which the source writes out twice; after a failure the states of the processors are not specified, since the chain is then abandoned.
- StreamedCollected.AnswersAgreeIff: for streams of blocks one after the other with one kind per index and no second completion; what happens when kinds share an index is in `ChatIndexes` and `Coalesce`.
- ChatIndexes.CallIsStreamedIff: for streams with one finish; streams of several choices, each with a finish of its own, and streams that break are decoded but not followed further.
- AnthropicDecoder.EventDecoder.ContentBlockStart: does not model the citations a text block may start with, since citation fields are left out throughout.
- AnthropicEndpoint.ContentBlocksFromResponse: does not model the citations attached to text blocks by content index, for the same reason.
- ResponsesCalls.CallsComeBackIff: for streams in which a call is started at most once, before its arguments, and done at most once; citations, reasoning and refusals are not carried by the Responses endpoint and not part of the statement.
- UTF-8: in `Sse` and `Coalesce` a character stands for a byte.
