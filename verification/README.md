# Verification of the NarrowMind Studio core

NarrowMind Studio is a desktop application (Rust, with Python workers) that collects documents,
chunks and deduplicates them, builds a retrieval index, and lets an agent drive the whole through
tools.  This project models the parts of it that have real algorithms or protocols in them and proves
what those parts promise.  `dafny verify dfyconfig.toml` checks all of it.

| files | what they model |
|---|---|
| `SseFraming`, `SseBlocks`, `SseFields`, `ProviderStream`, `ProviderStreamLaws`, `ProviderStreamMeaning` | the incremental decoder of the provider's event stream: byte buffer, blocks, frames, provider events |
| `AgentLoop`, `AgentLoopLaws`, `AgentLoopRounds` | the agent session: one conversation, at most 25 turns per message, tools dispatched in between |
| `RpcServer`, `RpcServerLaws` | the worker's line-framed JSON-RPC server |
| `WorkerChannel`, `WorkerChannelLaws`, `WorkerAnswers` | the pooled worker as a protocol of callers, stoppers and child processes; a run is a sequence of steps |
| `PersistentWorker`, `PersistentWorkerLaws` | the pool's code, proved to follow the protocol under every schedule, and what its calls return |
| `StreamingCall`, `StreamingCallLaws`, `StreamingCallNotes` | the one-shot call that streams notifications, with its idle timer and cancel switch |
| `CategoryWalk`, `CategoryWalkLaws` | the breadth-first walk that marks titles when they are first seen |
| `Crawl` | the breadth-first crawl that marks addresses when they are taken from the queue |
| `Chunker`, `ChunkerLaws` | greedy sentence windows with overlap |
| `MinHash`, `IngestPipeline` | near-duplicate removal and the pipeline around it |
| `RankFusion`, `RankFusionLaws`, `RankFusionRows` | reciprocal rank fusion over exact reals |
| `Disks`, `CorpusTools`, `CorpusLayout` | export and import of corpora on a disk that may fail at any write |
| `Options`, `Json`, `Sequences` | shared vocabulary |

Methods are proved against specification functions.  What these functions mean is told a second time without
them, from the bytes, frames, steps or paths alone and with the literal names and codes, in `SseFields`,
`ProviderStreamMeaning`, `AgentLoopRounds`, `RpcServerLaws`, `WorkerAnswers`, `PersistentWorkerLaws`,
`StreamingCallNotes`, `RankFusionRows` and `CorpusLayout`, and in the second half of the contract of `ProcessSource`.

How the outside world enters: whatever the code cannot control is a parameter over which every theorem
quantifies.  Providers, tool dispatchers and RPC handlers are arbitrary functions; what other callers
and the child process do while a caller waits, and how each wait ends, is an arbitrary schedule; the
stimuli of the streaming call are an arbitrary timed script; a disk has an arbitrary number of writes
left before one fails and may leave anything in the file being written; tokenizers, sentence splitters,
filters, sketches, JSON parsing and UTF-8 validation are function parameters.  A child may print any
noise at any time, as long as a noisy line does not carry an id still to come, or the latest id before that
request was answered; ids of earlier requests, answered ids, missing ids and lines that are not JSON are all
allowed.

## Where the code does not do what is said of it

In each case the code is modelled as it is, and lemmas show inputs on which the promise fails and the exact
condition under which it holds.

- Decoding depends on how the bytes are cut into chunks when an LF LF follows a CR LF CR LF, because LF LF
  is searched for first: `PiecesAreInvisibleIffUnmixed` (the condition is exact).
- `crates/agent/src/types.rs:126-127` says that no event follows a stop.  An error frame, or tool input that
  is not JSON, sends a stop of its own and the stream goes on: `OneStopIffNoFault` (the condition is exact, for
  bodies received whole or cut off); the agent loop then leaves early and reports no usage: `FaultHidesUsage`.
- A block index of 2^32 or more falls back to buffer 0: `SharedBufferIff`, `LargeIndexMixesBlocks`.
- The server answers malformed notifications (`workers/py/narrowmind_workers/rpc/server.py:103-121`), although
  section 4.1 of the JSON-RPC 2.0 specification wants silence: `SilentIffNotification`.
- A false flip of the cancel switch (`crates/orchestrator/src/worker.rs:362`, "ignore") and a dropped sender
  (`crates/orchestrator/src/worker.rs:363`) drop the bytes of a line that is half read, and restart the idle timer:
  `IdleMoveInsideLine`, `IdleMoveRestartsTimer`.  They never change anything exactly when they come between lines and
  right after the call woke up: `IdleMoveIsHarmlessIff`; for calls that would not be timed out, exactly when they
  come between lines: `IdleMoveIsHarmlessInTimeIff`.
- Two chunks with the same id: the second is written but never enters the index, so a later near-duplicate of it
  is written as well: `SameIdHidesChunk`.  A chunk is kept exactly when it meets no earlier kept chunk that is not
  hidden in this way: `KeptIffMeetsNoneShown`.
- The import refuses a project with prepared data, but looks only at `rag.jsonl` and the store; another dataset
  file of the project is replaced: `UnguardedFileIsReplaced`.  A completed import leaves a dataset file alone
  exactly when it is not wanted, or the corpus has none, or has the same: `FileStaysIff`.
- An import that breaks off once `rag.jsonl` is in place leaves a project that the next import refuses
  (`ImportRefused`).  An export that breaks off once its directory is there and before there is a manifest leaves a
  dead name: nothing can be exported to it or imported from it, and no later use of the tools revives it: `DeadIff`,
  `DeadStaysDead`.
- A negative `max_depth` still expands the root category (`Limit`), and a negative `rrf_k` can make a
  denominator zero (`DividesByZero`); the contracts say so.
- Window ends of the chunker never decrease whatever the overlap is; the check that the overlap is smaller than
  the target is not needed for it (`EndsStay`).

## Model

| member | source | states |
|---|---|---|
| SseFraming.FindFromIsFirst | crates/agent/src/anthropic.rs:347-350 | the search finds the first occurrence, and fails only if there is none |
| SseFraming.DrainLosesNothing | crates/agent/src/anthropic.rs:307-345 | the blocks, each followed by a blank line, and the leftover are the buffer; no block holds an LF LF, and no blank line is left over |
| SseFraming.DrainSplit | crates/agent/src/anthropic.rs:307-326 | in an unmixed stream, draining a prefix before the remainder arrives gives the blocks and the leftover of draining once |
| SseFraming.PiecesAreInvisibleIffUnmixed | crates/agent/src/anthropic.rs:307-345 | every way of cutting the stream into pieces gives the same blocks and leftover, exactly when no LF LF follows a CR LF CR LF |
| SseFraming.OneKindOfBlankLine | crates/agent/src/anthropic.rs:333-345 | a stream with one kind of blank line only is unmixed |
| SseBlocks.ParseSseBlock | crates/agent/src/anthropic.rs:357-384 | the loop over the lines of a block computes what reading them one by one gives |
| SseBlocks.ReadAfterPrintIffPrintable | crates/agent/src/anthropic.rs:357-384 | reading a printed event returns it exactly when its values survive the trimming, its name has no LF and its data does not start with an empty line |
| SseBlocks.ReadAfterPrintInPieces | crates/agent/src/anthropic.rs:307-384 | a printed stream of such events, cut anywhere, decodes to those events and leaves no bytes over |
| SseFields.EventLine | crates/agent/src/anthropic.rs:359-371 | however many blanks follow the colon and carriage returns end the line, an `event` line sets the name to its value |
| SseFields.DataLine | crates/agent/src/anthropic.rs:359-377 | `data` lines add up, a line feed between them |
| SseFields.OtherLine | crates/agent/src/anthropic.rs:369-378 | lines of any other field change nothing |
| SseFields.CommentOrNothing | crates/agent/src/anthropic.rs:360-363 | nor do comments and lines of carriage returns |
| SseFields.BareField | crates/agent/src/anthropic.rs:364-368 | a field without a colon has the empty value |
| SseFields.DroppedBlocks | crates/agent/src/anthropic.rs:317-325 | a payload yields nothing exactly when it is empty, not UTF-8, or has neither name nor data |
| ProviderStream.SsePump.DispatchFrame | crates/agent/src/anthropic.rs:386-504 | each kind of frame updates the state and sends events as its case says; `SentFrameByFrame` tells what these are |
| ProviderStream.SsePump.DrainEvents | crates/agent/src/anthropic.rs:307-327 | all complete blocks are removed and dispatched in order; the remainder stays in the buffer |
| ProviderStream.SsePump.PumpSse | crates/agent/src/anthropic.rs:266-304 | what is sent for a whole body, with a transport failure at any chunk; `BodyIsTold` and `TextOfBody` tell it from the frames |
| ProviderStreamLaws.PumpIgnoresChunking | crates/agent/src/anthropic.rs:266-345 | two ways of chunking one unmixed body send the same provider events |
| ProviderStreamLaws.PumpOfPrinted | crates/agent/src/anthropic.rs:266-504 | a body printed from events is dispatched event by event and then closed |
| ProviderStreamLaws.StreamEndsInStop | crates/agent/src/anthropic.rs:266-304 | whatever arrives, the last event is a stop and a usage report can only be directly before it |
| ProviderStreamLaws.TotalsAreLastReports | crates/agent/src/anthropic.rs:386-504 | the totals are the last cumulative counts reported |
| ProviderStreamLaws.OpenBlockBuffer | crates/agent/src/anthropic.rs:386-504 | while a block is open its buffer holds the id and name of its start and exactly its own deltas since |
| ProviderStreamLaws.StopSendsItsOwnCall | crates/agent/src/anthropic.rs:386-504 | under any interleaving of blocks, a block stop sends the call of that block's latest start with the parse of its own deltas, and nothing when no block is open |
| ProviderStreamLaws.SharedBufferIff | crates/agent/src/anthropic.rs:386-504 | two block indexes share a buffer exactly when they are equal or both are zero or beyond 32 bits |
| ProviderStreamLaws.LargeIndexMixesBlocks | crates/agent/src/anthropic.rs:386-504 | every index of 2^32 or more feeds block 0: any input its deltas spell becomes that block's |
| ProviderStreamLaws.MarkerFollowsCall | crates/agent/src/types.rs:108-117 | calls and result markers come in adjacent pairs |
| ProviderStreamLaws.OneStopIffNoFault | crates/agent/src/types.rs:126-127 | the stop that ends a body, received whole or cut off by a failure, is the only one exactly when no frame before reports an error or closes a block whose deltas are not JSON |
| ProviderStreamMeaning.TextDeltaIff | crates/agent/src/anthropic.rs:426-432 | a payload is a text delta with this text exactly when its `type`, `delta.type` and `delta.text` say so |
| ProviderStreamMeaning.JsonDeltaIff | crates/agent/src/anthropic.rs:434-441 | likewise a piece of tool input, by `index` and `delta.partial_json` |
| ProviderStreamMeaning.ToolBlockStartIff | crates/agent/src/anthropic.rs:413-424 | likewise the start of a tool block, with a missing id or name empty |
| ProviderStreamMeaning.BlockStopIff | crates/agent/src/anthropic.rs:447-449 | likewise the stop of a block |
| ProviderStreamMeaning.MessageStartIff | crates/agent/src/anthropic.rs:400-411 | likewise the first counts, under `message.usage` |
| ProviderStreamMeaning.MessageDeltaIff | crates/agent/src/anthropic.rs:474-490 | likewise the stop reason and the running count, each if it is there |
| ProviderStreamMeaning.ErrorFrameIff | crates/agent/src/anthropic.rs:492-500 | likewise an error, with a stock message when there is none |
| ProviderStreamMeaning.SentFrameByFrame | crates/agent/src/anthropic.rs:386-504 | all that is sent is told frame by frame from the frames before it: text for a text delta, a stop for an error, call and marker (or a stop) for the stop of an open block, nothing else |
| ProviderStreamMeaning.TextsAreTheDeltas | crates/agent/src/anthropic.rs:429-432 | the texts sent are the texts of the text deltas, in order, none lost and none made up |
| ProviderStreamMeaning.StopIsLastReason | crates/agent/src/anthropic.rs:474-482 | the closing reason is that of the last frame that gives one, by the four words on the wire, any other word being an error that names it, and "closed early" if none gives one |
| ProviderStreamMeaning.BodyIsTold | crates/agent/src/anthropic.rs:266-304 | a body sends what its frames tell and then one ending: the last counts, unless both are zero, and the closing stop; or the failure that came first |
| ProviderStreamMeaning.TextOfBody | crates/agent/src/anthropic.rs:266-304 | the texts sent for a body, whole or cut off, are those of its text deltas |
| ProviderStreamMeaning.TextOnTheWire | crates/agent/src/anthropic.rs:266-345 | however an unmixed body is chunked, these are the texts in the payloads of its blocks |
| ProviderStreamMeaning.TextOfPrinted | crates/agent/src/anthropic.rs:266-384 | and of the events from which a body was printed |
| AgentLoop.AgentSession.ReadStream | crates/agent/src/session.rs:146-171 | the loop over a stream gathers the text, the calls, the stop reason and the usage up to the first stop, and emits every delta |
| AgentLoop.AgentSession.AppendAssistantTurn | crates/agent/src/session.rs:246-266 | at most one message is added: text first, then the tool uses |
| AgentLoop.AgentSession.DispatchAll | crates/agent/src/session.rs:190-224 | every call is dispatched once, in order, between its start and end events; `RunIsRounds` tells what the results say |
| AgentLoop.AgentSession.SendUserMessage | crates/agent/src/session.rs:133-233 | the whole effect of a send on conversation, events, requests and tools; `SendIsRounds` tells it from the streams and the tools' answers |
| AgentLoopLaws.TurnKeepsWellFormed | crates/agent/src/session.rs:173-233 | one turn's messages keep the conversation well formed |
| AgentLoopLaws.SendKeepsWellFormed | crates/agent/src/session.rs:133-233 | at every return (done, refused, cap) the conversation is well formed, earlier messages are unaltered, and every request was well formed |
| AgentLoopLaws.SessionStaysWellFormed | crates/agent/src/session.rs:121-136 | well formed after any sequence of sends and resets |
| AgentLoopLaws.RunIsTurns | crates/agent/src/session.rs:138-233 | a run is a sequence of turns: each request carries the conversation so far, each turn is what the provider's answer to it says, each outcome is the dispatcher's for that call; messages, events, requests and tool invocations are exactly theirs, and a refusal is the provider's to the next request |
| AgentLoopLaws.TurnTrace | crates/agent/src/session.rs:146-233 | a turn shows as its deltas, one start/end pair per call in order, one turn end |
| AgentLoopLaws.OneTurnEndPerTurn | crates/agent/src/session.rs:176-233 | the turn ends of a run are one per turn with that turn's reason and usage |
| AgentLoopLaws.TurnEndsOfSend | crates/agent/src/session.rs:138-233 | at most 25 turn ends, all but the last announce more, done exactly when the last announces none, cap error exactly after 25 that announced more |
| AgentLoopLaws.HeardWholeIffOneStop | crates/agent/src/session.rs:152-171 | the loop hears a stream to its end exactly when it has one stop |
| AgentLoopLaws.FaultHidesUsage | crates/agent/src/session.rs:164-171 | the usage of a turn is the stream's totals, and nothing when the body failed or a frame was faulty |
| AgentLoopRounds.RunIsRounds | crates/agent/src/session.rs:138-233 | a run is a chain of rounds, told from streams and tools alone: the request is the prompt and the conversation, the stream counts up to its first stop, its text and calls are remembered, each tool runs once in order, and the next message brings back under each id what that tool said and whether it failed; the event trace says the same |
| AgentLoopRounds.SendIsRounds | crates/agent/src/session.rs:133-233 | a send is the user's words and at most 25 such rounds |
| AgentLoopRounds.ToolAnswersReachProvider | crates/agent/src/session.rs:190-224 | the request after a round with calls ends with one result per call, in order, with the tool's very words and flag, which were shown as well |
| RpcServer.MethodRegistry.Register | workers/py/narrowmind_workers/rpc/server.py:55-58 | a name is registered once; a second attempt changes nothing |
| RpcServer.JsonRpcServer.ServeForever | workers/py/narrowmind_workers/rpc/server.py:86-94 | for each line in order, the handler's notifications and then the reply are written |
| RpcServer.RepliesEchoId | workers/py/narrowmind_workers/rpc/server.py:96-150 | every reply is a response with the request's id and exactly one of result and error |
| RpcServer.SilentIffNotification | workers/py/narrowmind_workers/rpc/server.py:96-150 | there is no reply exactly for well-formed notifications |
| RpcServer.RepliesInOrder | workers/py/narrowmind_workers/rpc/server.py:86-190 | the frames with an id are the replies to the lines, in order, whatever notifications are in between |
| RpcServerLaws.Refusals | workers/py/narrowmind_workers/rpc/server.py:97-117 | no JSON is a parse error (-32700); no version 2.0 object, or no method name, an invalid request (-32600) |
| RpcServerLaws.MethodRefusals | workers/py/narrowmind_workers/rpc/server.py:118-130 | parameters that are no object are refused (-32602), then an unknown method (-32601), or passed over in silence when there is no id |
| RpcServerLaws.ServedByHandler | workers/py/narrowmind_workers/rpc/server.py:132-150 | any other request runs the handler of that method on those parameters and brings its value, its own error, or an internal error (-32603) |
| RpcServerLaws.NotificationsInOrder | workers/py/narrowmind_workers/rpc/server.py:165-190 | the frames without an id are exactly the notifications that handlers made, in order, and there are none where no handler ran |
| WorkerChannelLaws.StepKeepsInv | crates/orchestrator/src/worker_pool.rs:118-192 | every step of callers, stoppers and children keeps the invariant |
| WorkerChannelLaws.RunKeepsInv | crates/orchestrator/src/worker_pool.rs:118-192 | so does every run |
| WorkerChannelLaws.JudgeOfAnswer | crates/orchestrator/src/worker_pool.rs:375-396 | the caller reads off the server's answer exactly what the server meant, error codes and messages included |
| WorkerChannelLaws.ReplyCorrelation | crates/orchestrator/src/worker_pool.rs:306-397 | in every run, a value or RPC error that a call returns is what the server made of the request this very call wrote last: some step of the run is the child, at work on that request, answering it, the child holds that answer, and the caller got what it says |
| WorkerChannelLaws.OriginOfAnswer | workers/py/narrowmind_workers/rpc/server.py:86-150 | every answer a child holds goes back to a step in which it was at work on that very request |
| WorkerChannelLaws.OneChildOneHolder | crates/orchestrator/src/worker_pool.rs:172-192 | at every moment at most one child is alive, in the slot or being killed by the lock holder, and only the lock holder is at work |
| WorkerChannelLaws.PipeUserHoldsLock | crates/orchestrator/src/worker_pool.rs:118-131 | whoever writes to a child or reads from it, with success or not, holds the lock, on the child in the slot |
| WorkerChannelLaws.OthersLeavePipes | crates/orchestrator/src/worker_pool.rs:118-131 | no other step issues a request or takes a line |
| WorkerChannelLaws.AtMostOneRetry | crates/orchestrator/src/worker_pool.rs:133-170 | a call writes at most twice, to different children, the second time only when the first child is dead |
| WorkerChannelLaws.DecidedStays | crates/orchestrator/src/worker_pool.rs:154-165 | once the result is decided (a timeout, a second death) the call writes nothing more and ends with it |
| WorkerChannelLaws.SlotAfterReturn | crates/orchestrator/src/worker_pool.rs:123-168 | giving up in the queue changes neither slot nor child; any other return leaves the slot empty exactly after a timeout in flight, a second death or a failed spawn |
| WorkerChannelLaws.PoolRunsPerModule | crates/orchestrator/src/worker_pool.rs:217-227 | in a run of the pool every module sees a run of its own |
| WorkerAnswers.FirstCarriedLineEndsCall | crates/orchestrator/src/worker_pool.rs:343-396 | lines of JSON whose `id` is not the request's leave a caller waiting, and the first that carries it ends the call: with its error's code and message, or its result, and the child stays in its slot |
| WorkerAnswers.NoiseEndsCall | crates/orchestrator/src/worker_pool.rs:359-367 | a line that is no JSON ends the call as malformed |
| WorkerAnswers.MalformedMeansNoise | crates/orchestrator/src/worker_pool.rs:359-396 | in every run, a call is malformed only if some child printed a line that is no JSON |
| WorkerAnswers.RequestReachesHandler | crates/orchestrator/src/worker_pool.rs:314-319 | the request as written runs the handler of the caller's method on the caller's parameters |
| PersistentWorker.PlayEndsInARun | crates/orchestrator/src/worker_pool.rs:118-170 | under every schedule a call ends, and what happened is a run of the protocol |
| PersistentWorker.PersistentWorker.EnsureLive | crates/orchestrator/src/worker_pool.rs:229-246 | a child seen to have exited is dropped, an empty slot is filled or the spawn fails |
| PersistentWorker.PersistentWorker.Write | crates/orchestrator/src/worker_pool.rs:311-343 | the request goes out under the child's next id, delivered or not |
| PersistentWorker.PersistentWorker.Read | crates/orchestrator/src/worker_pool.rs:346-396 | a line of JSON that does not carry the id is passed over and nothing else is; the line that carries it ends the attempt with its error if it has one, else its result; a line that is no JSON, or an answer with neither, is malformed |
| PersistentWorker.PersistentWorker.Roundtrip | crates/orchestrator/src/worker_pool.rs:306-397 | write and read loop lead where the protocol leads under the same schedule |
| PersistentWorker.PersistentWorker.KillAndClear | crates/orchestrator/src/worker_pool.rs:428-433 | the slot is emptied, the child killed, then the next attempt or the result |
| PersistentWorker.PersistentWorker.Call | crates/orchestrator/src/worker_pool.rs:118-170 | the code with its two nested loops ends in the state in which the protocol ends under the same schedule; the point after the attempt loop is not reached; `CallIsServed`, `FirstDeathIsRetried` and the laws on deadlines and deaths tell what that state is |
| PersistentWorker.CallGetsItsOwnAnswer | crates/orchestrator/src/worker_pool.rs:118-170 | so the value or RPC error that the code's call returns was given by the child at work on its own request, in a run that ends where the code ends |
| PersistentWorkerLaws.ReaderIsAnswered | crates/orchestrator/src/worker_pool.rs:341-396 | whatever else goes on, a waiting caller gets what the first line with its id says if it is given the time to take the lines before it and they are JSON |
| PersistentWorkerLaws.CallIsServed | crates/orchestrator/src/worker_pool.rs:118-143 | a call returns what the server makes of its request, however many notifications and stale answers the child writes first, on a new child or an idle one |
| PersistentWorkerLaws.CallReturnsTheValue | crates/orchestrator/src/worker_pool.rs:118-143 | in particular the value the handler returns |
| PersistentWorkerLaws.FirstDeathIsRetried | crates/orchestrator/src/worker_pool.rs:145-151 | a first death is not seen: the request goes once more to a new child, and the call returns what comes of it there |
| PersistentWorkerLaws.SecondDeath | crates/orchestrator/src/worker_pool.rs:145-153 | a second death ends the call as an early exit, whatever may follow |
| PersistentWorkerLaws.DeadlineInFlight | crates/orchestrator/src/worker_pool.rs:155-165 | a deadline in flight ends the call as timed out at once, at the first attempt too |
| PersistentWorkerLaws.DeadlineInQueue | crates/orchestrator/src/worker_pool.rs:126-131 | a deadline in the queue ends it before anything is written |
| PersistentWorkerLaws.SpawnFailure | crates/orchestrator/src/worker_pool.rs:229-246 | so does a spawn that is needed and fails |
| PersistentWorkerLaws.ExitedChildIsReplaced | crates/orchestrator/src/worker_pool.rs:234-245 | a child seen to have exited is replaced by a new one before anything is written |
| PersistentWorker.PersistentWorker.Stop | crates/orchestrator/src/worker_pool.rs:187-192 | when a stop returns, slot and lock are free and no child of the module is alive |
| StreamingCall.Select | crates/orchestrator/src/worker.rs:331-366 | the three-way wait ends with the first complete line, the idle timer or the switch, and drops a half-read line |
| StreamingCall.CallWorkerStreaming | crates/orchestrator/src/worker.rs:251-431 | the loop gives the result and notifications of taking the stimuli one by one; `CallSaysWhatItsLinesSay` tells which these are |
| StreamingCallLaws.RunIsFaithful | crates/orchestrator/src/worker.rs:326-430 | with false flips and a dropped sender only between lines, and the switch turned on at any time, the call ends as its lines say, or times out after a full window of silence, or is cancelled by a switch turned on, with the first of the notifications |
| StreamingCallLaws.CallHearsTheLines | crates/orchestrator/src/worker.rs:326-430 | if moreover the switch is never turned on and no wait is too long, result and notifications are exactly those of the lines |
| StreamingCallNotes.CallSaysWhatItsLinesSay | crates/orchestrator/src/worker.rs:378-430 | end to end, the notifications are exactly the frames without an id that name a method, on the lines before the first that is no JSON or carries id 1, each with its name and parameters, in order and once each; that line, or the end of the output, decides the result |
| StreamingCallNotes.SomethingDecides | crates/orchestrator/src/worker.rs:366-430 | every output is of that kind, so the result is always told |
| StreamingCallNotes.LineInPieces | crates/orchestrator/src/worker.rs:332-334 | however a line arrives in pieces, it is one line |
| StreamingCallNotes.CancelEndsCall | crates/orchestrator/src/worker.rs:353-361 | turning the switch on ends a call that still waits as cancelled, after exactly the notifications until then |
| StreamingCallLaws.TimeoutMeansSilence | crates/orchestrator/src/worker.rs:341-352 | for every script, the idle timer ends a call exactly when a full window passes, while it waits, without a line or a move of the switch |
| StreamingCallLaws.SteadyIsNotReaped | crates/orchestrator/src/worker.rs:341-352 | a call of any length whose silences stay below the window is never ended by the timer, whatever the switch does |
| StreamingCallLaws.IdleMoveIsHarmlessIff | crates/orchestrator/src/worker.rs:331-364 | a false flip or a dropped sender changes nothing, whatever follows, exactly when no line is half read and no silence has passed |
| StreamingCallLaws.IdleMoveIsHarmlessInTimeIff | crates/orchestrator/src/worker.rs:331-364 | for what follows that the timer would not end, exactly when no line is half read |
| StreamingCallLaws.IdleMoveBetweenLines | crates/orchestrator/src/worker.rs:331-364 | at any moment of a wait between lines, it changes nothing in a call that the timer would not end |
| StreamingCallLaws.IdleMoveInsideLine | crates/orchestrator/src/worker.rs:331-364 | in the middle of a line it turns an answer into a protocol error |
| StreamingCallLaws.IdleMoveRestartsTimer | crates/orchestrator/src/worker.rs:331-364 | it lets a wait end well that was too long |
| StreamingCallLaws.NoSwitchWithoutSender | crates/orchestrator/src/worker.rs:326-330 | once the sender is gone the call is never cancelled |
| CategoryWalk.CollectCategoryPages | workers/py/narrowmind_workers/ingestion/wikipedia.py:125-153 | the capped walk returns exactly the first `max_pages` pages of the uncapped one |
| CategoryWalkLaws.NearIsDone | workers/py/narrowmind_workers/ingestion/wikipedia.py:136-152 | every category nearer than what is still queued has been expanded, at no more than its distance |
| CategoryWalkLaws.AllPagesAreRight | workers/py/narrowmind_workers/ingestion/wikipedia.py:125-153 | the uncapped walk returns exactly the articles of categories within `max_depth`, each once, nearest first, on cyclic graphs too |
| CategoryWalkLaws.CappedPagesAreRight | workers/py/narrowmind_workers/ingestion/wikipedia.py:125-153 | the capped result is distinct and within reach, complete unless the cap was hit, and then nothing left out is nearer than anything returned |
| Crawl.NearIsFetched | workers/py/narrowmind_workers/ingestion/url.py:70-99 | everything nearer than what is queued has been fetched, at no more than its distance |
| Crawl.IngestUrl | workers/py/narrowmind_workers/ingestion/url.py:35-105 | each address is fetched once, at its least depth through pages fetched well; documents and failures are the fetched ones in order; at most `max_pages` documents; nothing within reach is left out unless the cap was met by pages no farther away |
| Crawl.DocsAndFailures | workers/py/narrowmind_workers/ingestion/url.py:76-92 | documents plus failures are the addresses fetched |
| Crawl.DocsInOrder | workers/py/narrowmind_workers/ingestion/url.py:76-92 | the documents are the addresses fetched that could be had, in the order of fetching |
| Crawl.FailuresAreTheRest | workers/py/narrowmind_workers/ingestion/url.py:83-92 | the failures are the others |
| Chunker.MakeConfig | workers/py/narrowmind_workers/chunking.py:42-48 | exactly the valid configurations are accepted |
| Chunker.Pack | workers/py/narrowmind_workers/chunking.py:106-112 | greedy packing makes a window that fits, or is one sentence, and cannot take the next |
| Chunker.WalkBack | workers/py/narrowmind_workers/chunking.py:131-140 | the walk back shares as much as the overlap allows, and moves on by at least one sentence |
| Chunker.ChunkDocument | workers/py/narrowmind_workers/chunking.py:80-143 | the chunks are those of a complete windowing (there is one), without the windows that are too small or blank |
| ChunkerLaws.EndsStay | workers/py/narrowmind_workers/chunking.py:106-112 | a window that starts inside another one ends no earlier |
| ChunkerLaws.WindowsAdvance | workers/py/narrowmind_workers/chunking.py:103-141 | starts go up, ends never go down, no gap between windows, at most one window per sentence |
| ChunkerLaws.EverySentenceIsCovered | workers/py/narrowmind_workers/chunking.py:103-141 | every sentence lies in some window |
| ChunkerLaws.WindowingIsUnique | workers/py/narrowmind_workers/chunking.py:103-141 | the conditions on windows admit one result per document |
| ChunkerLaws.TokensAreConserved | workers/py/narrowmind_workers/chunking.py:103-141 | the windows' tokens are the document's plus the shared ones, at most the overlap for each window after the first |
| ChunkerLaws.WindowsRestoreDocument | workers/py/narrowmind_workers/chunking.py:103-141 | windows without their shared parts give the document back |
| ChunkerLaws.SmallBeforeLong | workers/py/narrowmind_workers/chunking.py:116-128 | a dropped window before the last is followed by a sentence longer than the target less the minimum |
| ChunkerLaws.OnlyTailIsLost | workers/py/narrowmind_workers/chunking.py:116-128 | if no sentence is that long, only the tail that the last window alone holds can be lost to the minimum, and it is smaller than the minimum |
| ChunkerLaws.InNoChunkIff | workers/py/narrowmind_workers/chunking.py:114-128 | a sentence is in no chunk exactly when every window that holds it is too small or blank |
| ChunkerLaws.OnlyTailIsInNoChunk | workers/py/narrowmind_workers/chunking.py:114-128 | so without blank windows and long sentences, only a tail smaller than the minimum is in no chunk |
| ChunkerLaws.ChunksAreWindows | workers/py/narrowmind_workers/chunking.py:114-128 | each chunk is one window that is neither too small nor blank, once and in order, with its sentence numbers, its tokens and its sentences joined by blanks and stripped |
| MinHash.MinHashDedup.Fingerprint | workers/py/narrowmind_workers/cleaning/minhash.py:75-83 | the loop gathers the shingles of every place; shorter texts have none |
| MinHash.MinHashDedup.AddUnlessDuplicate | workers/py/narrowmind_workers/cleaning/minhash.py:43-73 | the answer is about the index before; the index grows only by a text that is no duplicate, has a fingerprint and a new id |
| MinHash.SketchIsItsShingles | workers/py/narrowmind_workers/cleaning/minhash.py:75-83 | a text is sketched by exactly the runs of so many tokens, joined by blanks |
| MinHash.NeighboursAreThoseMet | workers/py/narrowmind_workers/cleaning/minhash.py:43-51 | the ids reported are those of the entries that the text meets |
| MinHash.DroppedMeetsKept | workers/py/narrowmind_workers/cleaning/minhash.py:43-73 | a dropped chunk meets an earlier kept one that is not hidden |
| MinHash.IdIsHeldIffClaimed | workers/py/narrowmind_workers/cleaning/minhash.py:53-64 | an id is in the index exactly when a kept chunk with a fingerprint carries it |
| MinHash.KeptIffMeetsNoneShown | workers/py/narrowmind_workers/cleaning/minhash.py:43-73 | for every list, a chunk is kept exactly when it meets no earlier kept chunk, leaving aside those whose id an earlier kept one with a fingerprint had |
| MinHash.KeptIffMeetsNoneKept | workers/py/narrowmind_workers/cleaning/minhash.py:43-73 | with distinct ids, as a corollary, exactly when it meets no earlier kept one |
| MinHash.SameShinglesKeptOnce | workers/py/narrowmind_workers/cleaning/minhash.py:43-73 | two chunks with the same shingles are both kept only if the first one's id was taken |
| MinHash.ShortIsKept | workers/py/narrowmind_workers/cleaning/minhash.py:47-49 | texts with fewer tokens than a shingle are always kept |
| MinHash.SameIdHidesChunk | workers/py/narrowmind_workers/cleaning/minhash.py:60-64 | a repeated id keeps a chunk out of the index, so two kept chunks meet |
| IngestPipeline.DedupChunks | workers/py/narrowmind_workers/ingestion/pipeline.py:110-118 | the chunks kept by the object with its index are those kept by the rule, and kept plus dropped is all |
| IngestPipeline.ProcessSource | workers/py/narrowmind_workers/ingestion/pipeline.py:42-127 | each counter is the number of lines with the property it is named for, and the file holds what is kept of the chunks of exactly the documents that both filters let through, in order; the work breaks off exactly at JSON without fields or a document past both filters whose metadata do not merge; an old file stays when nothing is kept or the work breaks off |
| IngestPipeline.EveryLineCounts | workers/py/narrowmind_workers/ingestion/pipeline.py:69-118 | each line that is not blank is filtered by language, by quality, failed or chunked; emitted is kept plus dropped |
| RankFusion.RrfFuse | workers/py/narrowmind_workers/rag/index.py:217-262 | the dictionaries hold the formula's sums, the sources and the first-seen payload; the result is the first `top_k` of the stable descending sort; a zero denominator is an error exactly when a counted row has one |
| RankFusionLaws.IdsAreThoseThatOccur | workers/py/narrowmind_workers/rag/index.py:241-256 | the ids are exactly those that occur in some row |
| RankFusionLaws.IdsInOrderOfSight | workers/py/narrowmind_workers/rag/index.py:241-256 | the ids are in the order of first sight, hence distinct |
| RankFusionLaws.SortSorts | workers/py/narrowmind_workers/rag/index.py:254-255 | the sort is descending and keeps the order of equals |
| RankFusionLaws.RowsAreBest | workers/py/narrowmind_workers/rag/index.py:254-262 | each row is better (higher sum, or equal and seen first) than all later rows and all ids left out; as many rows as ids, up to `top_k` |
| RankFusionLaws.DominanceIsKept | workers/py/narrowmind_workers/rag/index.py:217-262 | if `a` stands above `b` in every ranking that has `b`, then `b` is returned only after `a` |
| RankFusionLaws.OneRankingAlone | workers/py/narrowmind_workers/rag/index.py:265-283 | when all rankings but one are empty, that one's ids come back in order, cut at `top_k` |
| RankFusionRows.RowTellsPlaces | workers/py/narrowmind_workers/rag/index.py:240-262 | a row tells all the places of its id, ranking by ranking: the score is the sum of 1/(rrf_k + rank) over them, the sources are their rankings, the payload is the first place's row without the columns that begin with an underscore |
| RankFusionRows.DividesByZeroIff | workers/py/narrowmind_workers/rag/index.py:242-246 | the division by zero happens exactly when a row with an id stands at rank -rrf_k |
| Disks.Disk.CopyTree | crates/orchestrator/src/tools/corpora.rs:393-410 | a copy that succeeds gives the same tree, one that fails changes nothing outside the target, and fails only for want of luck or because a file stands in the way |
| CorpusTools.ExportCorpus | crates/orchestrator/src/tools/corpora.rs:117-195 | refusals change nothing and are exact; whatever fails, a corpus with a manifest holds all of the project's files and store; nothing outside the new corpus is touched |
| CorpusTools.ImportCorpus | crates/orchestrator/src/tools/corpora.rs:258-332 | refusals change nothing and are exact, so a prepared project is never overwritten; a completed import leaves the project with what the corpus holds; nothing else is touched |
| CorpusTools.ExportThenImport | crates/orchestrator/src/tools/corpora.rs:386-410 | export and import give every dataset file and the whole store back, from any crash of the export that left a manifest |
| CorpusTools.CorpusStaysAsExported | crates/orchestrator/src/tools/corpora.rs:134-150 | a corpus stays as it is through every sequence of exports and imports, refused, completed or broken off |
| CorpusTools.DeadIff | crates/orchestrator/src/tools/corpora.rs:134-150 | a name can be neither exported to nor imported from exactly when its directory is there without a manifest |
| CorpusTools.DeadStaysDead | crates/orchestrator/src/tools/corpora.rs:134-150 | no sequence of exports and imports revives such a name |
| CorpusTools.FileStaysIff | crates/orchestrator/src/tools/corpora.rs:298-328 | a completed import, full or not, leaves a dataset file as it is exactly when it is not wanted, or the corpus has none, or has the same |
| CorpusTools.UnguardedFileIsReplaced | crates/orchestrator/src/tools/corpora.rs:298-328 | a dataset file other than `rag.jsonl` is replaced without a refusal |
| CorpusLayout.CorpusHolds | crates/orchestrator/src/tools/corpora.rs:134-195 | path by path, a corpus with a manifest holds the three dataset files the project had, and its store if there was anything in it |
| CorpusLayout.ProjectHas | crates/orchestrator/src/tools/corpora.rs:298-332 | after an import the project has the corpus's `rag.jsonl`, the tuning files only if wanted, and the store; where the corpus has nothing it keeps what it had |
| CorpusLayout.RefusalsByPath | crates/orchestrator/src/tools/corpora.rs:126-297 | the refusals, by path |

## Left out

- `WorkerPool::status`, the bounded tail of the child's standard error and the texts attached to errors: reporting only.
- The wrap of the 64-bit request id after 2^64 writes to one child, and futures that are dropped while a call is in flight.
- Operating system pipes below the line, partial lines in the pooled call, `taskkill`, WSL; killing a child always succeeds.
- Fairness: the lock may go to any waiting caller, in any order.
- PersistentWorker.PersistentWorker.Stop: the wait for the lock has no deadline in the code, so a schedule that runs out leaves the stop waiting.
- StreamingCall.CallWorkerStreaming: spawning and the first write are not modelled; when the idle timer and another event fall on the same instant the timer wins, where the code picks either.
- JSON text parsing, UTF-8 decoding, the exact words of messages that quote exceptions, and model names, headers and HTTP status handling of the provider.
- Provider streams and documents are finite sequences; the tools' definitions sent with each request are not modelled.
- Chunk ids are drawn at random in the code; here they are given with the chunks, and the lemmas say where distinctness matters.
- IngestPipeline.ProcessSource: of the lines that end the work with an exception, those that are JSON but no object and those whose metadata cannot be merged are modelled; a text that is not a string is not.
- Document metadata as such, manifests of sources, rate limits and pauses, and the extraction of text and links from pages: an address or title stands for its content.
- Fetching the same address is taken to succeed or fail once and for all; each is fetched at most once, so nothing is lost by it.
- RankFusion.RrfFuse: sums are exact reals, rounding of floats is not modelled; columns are text, and a chunk id that is not text is not modelled.
- Which sketches collide in the index, and how likely: an arbitrary relation.
- CorpusTools.ExportCorpus: the line counts in the manifest and the listing of available corpora are not modelled; the manifest's text is a parameter.
- Name validation: that no project is called `_corpora` is taken from it.
- Tool argument parsing, the model registry, presets, cost estimates and report rendering: single-branch checks only.
- The training and inference managers, the vector store's rows and the user interface.
