# Verified model of the agent manager's broker

This project models the logic of the agent manager's broker in Dafny and proves what it promises.
The broker sits between one client at a time and any number of provider agents (Codex or Claude). It
keeps one rendered transcript per agent and sends minimal patches of it, numbers and replays the
agents' events across reconnects, queues prompts, routes provider responses to the connection that
asked, and makes sure that a provider's question to a human is answered, by the human or by a
denial.

Code that works step by step is modelled by classes and loops (`Styler`, `Transcripts.Transcript`,
`Framing.Reader`, `Replay.ReplayBuffer`, `Embedded.Broker`, `ProviderLoop.Loop`,
`TurnWorker.Worker`). Each method is proved to do what a function of the old state says, and the
theorems are proved about those functions, over every input and every run.

**Transcript** (`Options`, `Utf8`, `Markdown`, `Styler`, `MarkdownTheorems`, `CodeSpans`,
`InlineRules`, `Blocks`, `Splice`, `Transcript`, `TranscriptTheorems`, `ReplyTheorems`,
`Convergence`). The styler works on byte offsets into UTF-8 text, as the source does; its
specification works on character positions, and the methods are proved to agree with it. The
transcript class keeps its lines equal to a full rendering, and every patch it emits is the one a
comparison of the whole documents would emit. Code spans follow section 6.1 of CommonMark 0.30
except for precedence: an emphasis or a link that starts earlier may swallow one.
`CodeSpansFollowRuleIff` says exactly when the rule holds and `EmphasisBreaksRule` gives a text on
which it does not. What a line is (fenced code, heading, rule, quote, table, list) is stated by its
characters and the fences above it, and what emphasis and links are by the characters around them,
without the styler's own functions.

**Framing and replay** (`Framing`, `Replay`).

**Broker** (`Protocol`, `BrokerSteps`, `BrokerRuns`, `Embedded`, `EventDelivery`, `ResponseRouting`,
`RequestReplies`, `PromptLedger`, `Departures`, `ContextLedger`, `AgentTable`, `BrokerTasks`,
`TurnEnds`, `Requests`, `Reports`). `BrokerSteps` says what each input does, as a composition of
atomic effects; `Embedded.Broker` is the object that does it in place; `BrokerRuns` shows that what
every effect keeps is kept by every run. The state carries a trace of everything sent, forwarded and
accepted, so that properties of whole runs can be stated. Event publication nests (the end of a turn
dispatches or cancels queued prompts, which publishes notices and errors); that it terminates is the
decreases clause of `HandleProviderEvent` and the methods it calls. `TurnEnds`, `Requests` and
`Reports` say when each event, request and report gets through, on the table and the trace, and what
it leaves as it was.

**Provider tasks** (`RuntimeSteps`, `Runtime`, `RequestLedger`, `Conservation`, `Answers`,
`LoopOutcomes`). One runtime serves both providers and differs where the source differs: Codex
requests that arrive while a request is open are denied at once and still published, Claude
callbacks are kept, and those that arrive during a history request are dropped.

**The whole system** (`Composition`, `SystemSafety`, `Warnings`, `Strays`). Broker, tasks, command
channels, event channel and the front end that accepts clients, interleaved in every way. The broker
waits while it retires tasks, one after the other, each until it is over or given up; a
disconnection notice that finds a command channel full waits outside it.

**Claude worker** (`TurnWorker`). The turns of one agent as steps between which other coroutines
run.

Facts of the code that shape the statements:

- When more than `capacity` events arrive between `initialize` and `initialized`, nothing is replayed;
  a cursor beyond the log gets an empty replay. `ReconnectIsGapFree` states exactly when nothing is
  missed.
- The balance of human requests is exact if and only if the provider makes no request that nobody can
  answer (`CountersAreExactIff`): for Claude one without identity, for Codex also one that is denied on
  the spot, which nothing resolves later (`CodexDenialIsNeverResolved`).
- An agent that leaves the table while prompts are queued takes them with it. `PromptsAreLostIffAgentLeaves`
  says that this is the only way a prompt is lost, and `AnArchivedPromptIsForgotten` shows that it happens.
- A human request that arrives while no client is ready is denied (`WarnedIffUnseen`), and is still part of
  the replay that the next client may receive.

## Model

| member | source | states |
|---|---|---|
| Styler.FindBacktickRun | crates/agent-manager-broker/src/transcript.rs:610-625 | the byte-offset loop finds the first backtick run of exactly the given length, or reports that there is none |
| Styler.FindEmphasisClose | crates/agent-manager-broker/src/transcript.rs:628-646 | trying the delimiter's occurrences in turn finds the first acceptable closing one, and its end is given in bytes |
| Styler.InlineSpans | crates/agent-manager-broker/src/transcript.rs:544-608 | the index loop appends exactly the spans of the token scan, in byte offsets |
| Styler.RuleLine | crates/agent-manager-broker/src/transcript.rs:492-509 | the counting loop recognises three or more equal markers among blanks, and nothing else |
| Styler.TableSeparatorLine | crates/agent-manager-broker/src/transcript.rs:511-521 | the counting loop recognises lines of pipes, colons and spaces with at least three dashes, and nothing else |
| Styler.StyleOne | crates/agent-manager-broker/src/transcript.rs:410-470 | one line's style and the fence state after it are those of the line rule |
| Styler.StyleAll | crates/agent-manager-broker/src/transcript.rs:402-408 | a text's lines are styled left to right with the fence state carried along |
| Blocks.LinesFollowFences | crates/agent-manager-broker/src/transcript.rs:402-456 | on characters: once a line outside of fenced code opens some, every line up to the first that closes it with as many of the same marker is code and that line is a fence; outside, the line's own characters say whether it is a fence, a heading, a rule, a quote or a table separator |
| Blocks.ListMarkersAreMarked | crates/agent-manager-broker/src/transcript.rs:525-542 | a list marker is marked exactly where the line's indentation is followed by a bullet, or one to nine digits with a dot or bracket, and a space |
| Blocks.RowBordersAreMarked | crates/agent-manager-broker/src/transcript.rs:440-456 | in a table row every bar, and nothing else, is marked as a border |
| MarkdownTheorems.LineIsWellFormed | crates/agent-manager-broker/src/transcript.rs:410-470 | every line keeps its text; its spans are non-empty, in bounds, on character boundaries, sorted by start, and disjoint unless the line is a table row |
| MarkdownTheorems.CodeSpanRule | crates/agent-manager-broker/src/transcript.rs:544-566 | a maximal backtick run outside of every emitted span opens a code span if and only if an equal run follows, and the span ends with the first such run |
| CodeSpans.EveryCodeSpan | crates/agent-manager-broker/src/transcript.rs:544-566 | every code span the scanner emits opens and closes with maximal runs of equal length, with no run of that length between |
| CodeSpans.LineCodeSpans | crates/agent-manager-broker/src/transcript.rs:410-470 | so does every code span of every styled line, whatever its block and its fence state |
| CodeSpans.CodeRuleMeaning | crates/agent-manager-broker/src/transcript.rs:551-565 | the rule of section 6.1 stated without the scanner: a run outside of earlier code spans opens one if and only if an equal run follows |
| CodeSpans.CodeSpansFollowRuleIff | crates/agent-manager-broker/src/transcript.rs:544-608 | the scanner's code spans are those of section 6.1 if and only if no emphasis or link that opens outside of a code span reaches the start of one |
| CodeSpans.PlainTextFollowsRule | crates/agent-manager-broker/src/transcript.rs:544-608 | the rule holds for every text without `*`, `_` and `[` |
| CodeSpans.EmphasisBreaksRule | crates/agent-manager-broker/src/transcript.rs:567-590 | a concrete text on which the rule fails |
| MarkdownTheorems.BacktickTokenMeaning | crates/agent-manager-broker/src/transcript.rs:610-625 | at an opener the search finds the first equal run, and an opener stays plain text only when there is none |
| MarkdownTheorems.EmphasisTokenMeaning | crates/agent-manager-broker/src/transcript.rs:628-646 | emphasis is enclosed in equal delimiters, does not start or end with a space, and `_` only works at word bounds |
| MarkdownTheorems.LinkTokenMeaning | crates/agent-manager-broker/src/transcript.rs:649-660 | a link has a non-empty text without an opening bracket and a non-empty target without spaces |
| InlineRules.EmphasisIff | crates/agent-manager-broker/src/transcript.rs:567-590 | at a star or an underscore emphasis is emitted if and only if it may open and some delimiter may close it, strong if and only if the delimiter is double, and it ends with the first that may; double delimiters are matched in pairs from the start of their run |
| InlineRules.LinkIff | crates/agent-manager-broker/src/transcript.rs:649-662 | at a bracket a link is emitted if and only if a non-empty text without brackets and a non-empty target without spaces follow |
| Splice.DiffApplies | crates/agent-manager-broker/src/transcript.rs:284-309 | applying the emitted range replacement to the old lines gives the new lines |
| Splice.DiffIsMinimal | crates/agent-manager-broker/src/transcript.rs:284-309 | no other single range replacement between the two documents replaces fewer old lines or carries fewer new ones |
| Splice.DiffAfter | tests/fixtures/fake_public_broker.py:123-150 | comparing two documents with a common front is comparing the rest, shifted |
| Splice.DiffBetween | crates/agent-manager-broker/src/transcript.rs:270-309 | a comparison of documents that differ between a common front and back stays between them |
| Transcripts.Transcript.PushUser | crates/agent-manager-broker/src/transcript.rs:119-129 | appends the user's message; lines equal the full rendering and the patch is that of a whole-document comparison, one revision on |
| Transcripts.Transcript.ApplyEvent | crates/agent-manager-broker/src/transcript.rs:131-202 | changes the messages as the event rule says and emits the whole-document patch exactly when something changed |
| Transcripts.Transcript.ReplaceHistory | crates/agent-manager-broker/src/transcript.rs:204-254 | the messages become the projected history; rendering and patch as above |
| Transcripts.Transcript.PushMessage | crates/agent-manager-broker/src/transcript.rs:262-268 | the appended message's lines are spliced at the end and the invariant holds again |
| Transcripts.Transcript.SetMessage | crates/agent-manager-broker/src/transcript.rs:270-280 | replacing one message's lines in place keeps the rendering, and for the last message the patch is that of the whole document |
| Transcripts.Transcript.Replace | crates/agent-manager-broker/src/transcript.rs:282-309 | the lines between start and end are replaced and the patch names only those that differ |
| Transcripts.SetAt | crates/agent-manager-broker/src/transcript.rs:270-280 | summed line counts locate a message, and splicing its new lines renders the new list of messages |
| TranscriptTheorems.StreamingLocality | crates/agent-manager-broker/src/transcript.rs:151-169 | a delta replaces at most one old line, the reply's last text line, and carries at most one line more than it has newlines |
| TranscriptTheorems.TextFidelity | crates/agent-manager-broker/src/transcript.rs:349-390 | the body lines joined by newlines are the provider's text with only NUL replaced and carriage returns removed |
| TranscriptTheorems.JoinSplit | crates/agent-manager-broker/src/transcript.rs:349-355 | joining the text lines by newlines gives back the normalized text |
| TranscriptTheorems.ChunkingIsInvisible | crates/agent-manager-broker/src/transcript.rs:151-169 | however a reply is cut into deltas, the same single streaming message results |
| ReplyTheorems.CompletedRepliesKeepTheirText | crates/agent-manager-broker/src/transcript.rs:170-181 | after any deltas, a completion leaves one closed message that shows the completion's text if it has at least as many bytes as the deltas together, and otherwise the deltas; its lines join to that text |
| ReplyTheorems.TurnEndsKeepText | crates/agent-manager-broker/src/transcript.rs:193-198 | the end of a turn closes an open reply, keeps its text, and changes no other message |
| ReplyTheorems.LateCompletionsAppend | crates/agent-manager-broker/src/transcript.rs:182-192 | a completion without an open reply becomes a message of its own if it has a text, under the model it names, else the default model, else the provider's name |
| ReplyTheorems.OtherEventsChangeNothing | crates/agent-manager-broker/src/transcript.rs:199-201 | events without a text of the assistant leave the transcript alone |
| ReplyTheorems.HistoriesAreShownInOrder | crates/agent-manager-broker/src/transcript.rs:204-247 | a projected history shows exactly the items that name a role and a text, in order, each under its title |
| ReplyTheorems.MessagesAreFramed | crates/agent-manager-broker/src/transcript.rs:361-390 | a reply stands under its label and a blank line, and is followed by an ellipsis while it streams and by a blank line |
| ReplyTheorems.UserMessagesAreFramed | crates/agent-manager-broker/src/transcript.rs:361-369 | a user's message is its lines in the user's style and a blank line |
| ReplyTheorems.UserMessagesShowTheirText | crates/agent-manager-broker/src/transcript.rs:119-127 | a user's message shows the user's text, joined by newlines, without a label |
| ReplyTheorems.LabelsAreOneLine | crates/agent-manager-broker/src/transcript.rs:357-359 | a label keeps its length and has no line break |
| Convergence.ClientHoldsItsRevision | protocol/README.md:66-72 | over any interleaving of edits, losses and reconnects, the client's lines are the broker's document at the client's revision |
| Convergence.SnapshotCatchesUp | crates/agent-manager-broker/src/embedded.rs:1898-1977 | a snapshot followed by a lossless connection brings the client to the current document |
| Framing.Reader.ReadBoundedLine | crates/agent-manager-broker/src/framing.rs:11-42 | however the stream is chunked, the result is that of a pure split at the first newline, and at most one byte more than the limit is buffered |
| Framing.FramesCoverStream | crates/agent-manager-broker/src/framing.rs:11-42 | successive frames concatenate back to the consumed stream, each is one line within the limit, and reading stops for exactly the stated reasons |
| Framing.WrittenLinesAreReadBack | crates/agent-manager-broker/src/embedded.rs:264-277 | what a peer writes line by line is read back line by line |
| Replay.ReplayBuffer.Push | crates/agent-manager-broker/src/replay.rs:31-44 | an event gets the next sequence and the buffer is again the last `capacity` events of the log |
| Replay.ReplayBuffer.ReplayAfter | crates/agent-manager-broker/src/replay.rs:51-67 | everything after the cursor, in order, exactly when none of it has left the window; otherwise a resync with the window's bounds |
| Replay.LaterIsSuffix | crates/agent-manager-broker/src/replay.rs:57-66 | filtering by sequence is taking a suffix |
| Embedded.Broker.constructor | crates/agent-manager-broker/src/embedded.rs:355-406 | the broker starts unconnected with an empty log and no live agent |
| Embedded.Broker.Connect | crates/agent-manager-broker/src/embedded.rs:481-489 | a newer connection takes over and starts its handshake; an older one is ignored |
| Embedded.Broker.Disconnect | crates/agent-manager-broker/src/embedded.rs:491-503 | the connection's pending requests are dropped and every agent is told |
| Embedded.Broker.HandleInitialized | crates/agent-manager-broker/src/embedded.rs:539-559 | the handshake ends and the replay is sent, event by event |
| Embedded.Broker.HandleInitialize | crates/agent-manager-broker/src/embedded.rs:657-690 | the cursor is the client's, or the end of the log when a resync is needed |
| Embedded.Broker.Announce | crates/agent-manager-broker/src/embedded.rs:2108-2120 | an event is numbered, kept for replay, and sent when the client is ready |
| Embedded.Broker.ApplyEventState | crates/agent-manager-broker/src/embedded.rs:2230-2291 | the agent's state, turn and counters follow the event |
| Embedded.Broker.HandleProviderEvent | crates/agent-manager-broker/src/embedded.rs:2097-2146 | publication and its nested consequences for the prompt queue; the recursion terminates |
| Embedded.Broker.DispatchQueuedPrompt | crates/agent-manager-broker/src/embedded.rs:2148-2178 | the first queued prompt is started, or its failure is handled as a provider failure |
| Embedded.Broker.CancelQueuedPrompts | crates/agent-manager-broker/src/embedded.rs:2180-2197 | the queue is emptied and one notice counts what it held |
| Embedded.Broker.HandleProviderFailure | crates/agent-manager-broker/src/embedded.rs:2199-2228 | the queue is cancelled, the agent is disconnected with counters cleared, and an error is published |
| TurnEnds.EndedTurnStartsNext | crates/agent-manager-broker/src/embedded.rs:2130-2178 | a turn that ran to its end, with no human asked anything and a channel that takes it, starts exactly the head of the queue under a fresh request, and keeps the rest |
| TurnEnds.EndedTurnLosesChannel | crates/agent-manager-broker/src/embedded.rs:2168-2174 | if the channel does not take it the prompt is undelivered, the others are cancelled with one notice, and the agent is cut off |
| TurnEnds.OtherEndCancels | crates/agent-manager-broker/src/embedded.rs:2130-2143 | any other end starts nothing, cancels the whole queue with one notice that counts it, and leaves the agent completed, interrupted or failed as the event says |
| TurnEnds.PromptsFollowEnds | crates/agent-manager-broker/src/embedded.rs:2130-2138 | in every run a queued prompt is taken only right after a turn of its agent ran to its end |
| TurnEnds.OtherEventsOnlyShow | crates/agent-manager-broker/src/embedded.rs:2097-2129 | events that end no turn are published, and change neither queues, contexts nor tasks |
| TurnEnds.EventsSetState | crates/agent-manager-broker/src/embedded.rs:2238-2285 | the state and the counters that turn starts, requests and resolutions leave; a resolution leaves the state that the counters and the turn tell |
| Embedded.Broker.HandleRuntimeEvent | crates/agent-manager-broker/src/embedded.rs:1997-2095 | every runtime event does what its step says |
| Embedded.Broker.SendRuntimeResponse | crates/agent-manager-broker/src/embedded.rs:2374-2385 | a pending request is forgotten and answered only on the connection that made it |
| Reports.ResponsesGetThrough | crates/agent-manager-broker/src/embedded.rs:2374-2385 | a response is forgotten, and its client answered if and only if the request was made on the connection that is still there |
| Reports.FailedRequestsAreAnswered | crates/agent-manager-broker/src/embedded.rs:2047-2075 | a client's request that failed is answered; if it costs the agent, the queue is cancelled and the task told to end first |
| Reports.FailuresCutOff | crates/agent-manager-broker/src/embedded.rs:2199-2228 | a failed provider, and a queued prompt that cannot start, cancel the queue with one notice, cut the agent off and publish the cause last |
| Reports.StartsReplaceOldRecords | crates/agent-manager-broker/src/embedded.rs:1997-2043 | a session that opened makes its agent idle, answers the client, and replaces exactly the older records of the session |
| Reports.EndsDisconnect | crates/agent-manager-broker/src/embedded.rs:2080-2093 | the end of a task cancels the queue, discards the contexts and disconnects its agent |
| Reports.NewerConnectionsTakeOver | crates/agent-manager-broker/src/embedded.rs:481-489 | a newer connection starts its handshake, an older one changes nothing |
| Reports.OldConnectionsAreIgnored | crates/agent-manager-broker/src/embedded.rs:408-479 | nothing an older connection still sends has an effect |
| Reports.LossEndsOrWaits | crates/agent-manager-broker/src/embedded.rs:491-503 | an embedded broker ends with its client; a durable one forgets exactly the requests of that connection |
| Reports.HandshakeComesFirst | crates/agent-manager-broker/src/embedded.rs:561-729 | before the handshake is complete a client gets nothing but a reply, and its valid `initialize` is taken once, with its cursor or the end of the log on a resync |
| Embedded.Broker.RuntimeRequest | crates/agent-manager-broker/src/embedded.rs:2354-2372 | a fresh request id remembers the connection and the client's id |
| Embedded.Broker.PromptAgent | crates/agent-manager-broker/src/embedded.rs:1509-1655 | a prompt is refused, queued or sent as the agent's state, the queue's bound and the contexts decide |
| Requests.PromptsReachRestingAgents | crates/agent-manager-broker/src/embedded.rs:1509-1655 | a prompt goes out, or is queued, with the call's text, everything that waits and the right options, exactly in the states that allow it; otherwise nothing but the refusal happens |
| ContextLedger.SteersReachRunningTurns | crates/agent-manager-broker/src/embedded.rs:1509-1655 | a steer goes out with everything that waits if and only if its agent runs, its options are the turn's, its contexts fit and the channel takes it; turn, queue, counters and other agents stay as they were |
| Embedded.Broker.InterruptAgent | crates/agent-manager-broker/src/embedded.rs:1657-1691 | queued prompts are cancelled before the interrupt is forwarded |
| Requests.InterruptsCancelFirst | crates/agent-manager-broker/src/embedded.rs:1657-1691 | an interruption cancels the whole queue with one notice before it goes out |
| Requests.AnswersAreForwarded | crates/agent-manager-broker/src/embedded.rs:1693-1772 | a human's answer reaches the agent's task as it was given, or the client is answered at once |
| Requests.HistoriesAreForwarded | crates/agent-manager-broker/src/embedded.rs:1313-1351 | a history is asked of an agent if and only if it has a task |
| Requests.ContextsAreKept | crates/agent-manager-broker/src/embedded.rs:1774-1815 | a context is kept if and only if its agent has a task and a channel and the bounds allow it |
| ContextLedger.ContextsAreDelivered | crates/agent-manager-broker/src/embedded.rs:1774-1815 | in every run an agent's contexts are those added since an input took them or a failure discarded them; every input takes all of them, in order, and every queued prompt and every prompt or steer that goes out carries what was taken for it |
| ContextLedger.ContextsAlwaysFit | crates/agent-manager-broker/src/embedded.rs:2460-2471 | in every run, what waits for an agent and what an accepted or forwarded input carries is at most 256 items and 512 KiB |
| Embedded.Broker.LaunchAgent | crates/agent-manager-broker/src/embedded.rs:1193-1296 | a launch is refused when a live writer owns the checkout, otherwise a fresh agent starts |
| Requests.LaunchesFindNoWriter | crates/agent-manager-broker/src/embedded.rs:1210-1242 | a launch goes through if and only if no task still writes to its workspace and, embedded, no other agent is live; it adds one agent and changes no other |
| Embedded.Broker.RetireAgent | crates/agent-manager-broker/src/embedded.rs:1449-1469 | the task is shut down and let go, and the agent's counters are cleared |
| Embedded.Broker.ForkAgent | crates/agent-manager-broker/src/embedded.rs:1392-1447 | a resting agent is retired and launched again with its contexts |
| Requests.ForksReplaceRestingAgents | crates/agent-manager-broker/src/embedded.rs:1392-1447 | a fork replaces exactly a resting agent with nothing asked of a human, by one like it with its contexts, if the workspace is vacant then |
| Embedded.Broker.ArchiveAgent | crates/agent-manager-broker/src/embedded.rs:1471-1507 | an inactive agent leaves the table |
| Requests.InactiveAgentsAreArchived | crates/agent-manager-broker/src/embedded.rs:1471-1507 | an agent leaves the table if and only if nothing of it is running, starting or waiting for a human |
| Embedded.Broker.DeleteSession | crates/agent-manager-broker/src/embedded.rs:858-994 | unless one of them has work, the session's agents are retired in order and, if the deletion succeeds, leave the table |
| Requests.InactiveSessionsAreDeleted | crates/agent-manager-broker/src/embedded.rs:858-994 | a session is deleted if and only if none of its agents is active: exactly its agents with a task are let go, and exactly its agents leave the table |
| Requests.ShutdownEndsEmbeddedBrokers | crates/agent-manager-broker/src/embedded.rs:630-647 | a shutdown ends an embedded broker and leaves a durable one running |
| Embedded.Broker.Take | crates/agent-manager-broker/src/embedded.rs:408-479 | one turn of the loop does what its step says, for every input |
| Embedded.Broker.Serve | crates/agent-manager-broker/src/embedded.rs:408-479 | any sequence of inputs leads the object to the state of the run |
| BrokerRuns.RunKeeps | crates/agent-manager-broker/src/embedded.rs:408-479 | what every atomic effect keeps holds after every run of the broker |
| EventDelivery.DeliveriesAreConsecutive | crates/agent-manager-broker/src/embedded.rs:2097-2228 | on every connection of every run, nested publications included, the delivered events are a contiguous stretch of the numbered log, up to its end while the client is ready |
| EventDelivery.ReconnectIsGapFree | crates/agent-manager-broker/src/embedded.rs:539-690 | a reconnecting client receives the log from its replay base on, once and in order, through the handshake and for as long as it stays; nothing after its cursor is missed if and only if the cursor is not beyond the log and at most `capacity` events separate it from the end of the handshake |
| EventDelivery.ReachableIsSilent | crates/agent-manager-broker/src/embedded.rs:2115-2120 | in every run the log is numbered without gaps and nothing is sent on a connection before its handshake ends |
| RequestReplies.EveryRequestIsHandledOnce | crates/agent-manager-broker/src/embedded.rs:561-655 | every request on the current connection is replied to or forwarded, exactly once and under its own id |
| ResponseRouting.RequestIdsAreFresh | crates/agent-manager-broker/src/embedded.rs:2148-2160 | in every run, no two requests, of clients or of the queue, share an id |
| ResponseRouting.ResponsesAreRouted | crates/agent-manager-broker/src/embedded.rs:2354-2385 | every response answers an earlier request of the same connection, which stayed open in between; queued prompts are never answered |
| ResponseRouting.AnsweredOnce | crates/agent-manager-broker/src/embedded.rs:2374-2385 | over any run of reconnects, no request is answered twice |
| ResponseRouting.PendingIsUnanswered | crates/agent-manager-broker/src/embedded.rs:2354-2385 | a request that is still pending has not been answered |
| PromptLedger.EveryPromptIsAccountedFor | crates/agent-manager-broker/src/embedded.rs:1533-1590 | for every agent, in the table or not, every dispatch, failed dispatch and notice resolves the next accepted prompts in order; for an agent in the table the rest is its queue, of at most 32 |
| Departures.PromptsAreLostIffAgentLeaves | crates/agent-manager-broker/src/embedded.rs:1471-1507 | for every agent of every run, some accepted prompt is neither resolved nor queued if and only if the agent left the table while prompts were queued |
| Departures.AnArchivedPromptIsForgotten | crates/agent-manager-broker/src/embedded.rs:2422-2439 | a run in which this happens: an approval resolved before its turn is announced leaves an idle agent with a queued prompt, which is then archived |
| PromptLedger.FailedDispatchIsReported | crates/agent-manager-broker/src/embedded.rs:2148-2228 | a queued prompt that could not be sent is followed by its error, with at most a cancellation notice between |
| AgentTable.WaitingIsJustified | crates/agent-manager-broker/src/embedded.rs:2230-2291 | in every run an agent waits for an approval, or for an answer, only while one is outstanding |
| AgentTable.EmbeddedHasOneLiveAgent | crates/agent-manager-broker/src/embedded.rs:1210-1220 | the embedded broker never has two live agents, forks included |
| ProviderLoop.Loop.Request | crates/agent-manager-broker/src/codex.rs:372-407 | frames read before the response are collected; Codex requests among them are denied on the spot |
| ProviderLoop.Loop.PublishEvent | crates/agent-manager-broker/src/runtime.rs:899-926 | a human request is held and published under a fresh id, other requests are denied, everything else is published |
| ProviderLoop.Loop.PublishEvents | crates/agent-manager-broker/src/runtime.rs:876-897 | the batch is published in order up to the first failure |
| ProviderLoop.Loop.RespondTo | crates/agent-manager-broker/src/runtime.rs:934-1061 | an answer that fits is written, and only then is the request forgotten and its resolution published |
| Answers.AnswersGetThroughIff | crates/agent-manager-broker/src/runtime.rs:934-1061 | an answer gets through if and only if it matches a held request and can be written; then it is written once, the request forgotten and its resolution published, and otherwise the request stays held and only a failed write costs the agent |
| Answers.HeldRequestsCanBeAnswered | crates/agent-manager-broker/src/runtime.rs:1716-1855 | in every session a held request leaves with the human's answer if and only if the answer is of its kind, fits and can be written, and it is then answered exactly once |
| ProviderLoop.Loop.DenyRequests | crates/agent-manager-broker/src/runtime.rs:1063-1121 | each listed request is forgotten and its resolution published whether or not its denial could be written |
| ProviderLoop.Loop.Interrupt | crates/agent-manager-broker/src/runtime.rs:675-738 | everything held is denied before the turn is interrupted |
| ProviderLoop.Loop.Turn | crates/agent-manager-broker/src/runtime.rs:528-862 | one turn of the Codex loop does what its step says |
| ProviderLoop.Loop.Obey | crates/agent-manager-broker/src/runtime.rs:1274-1577 | every command of the Claude loop does what its step says |
| ProviderLoop.Loop.Open | crates/agent-manager-broker/src/runtime.rs:1151-1272 | a session is opened, what arrived meanwhile is published, and a failed start ends the task |
| LoopOutcomes.StartsIff | crates/agent-manager-broker/src/runtime.rs:1139-1272 | a task gets into its loop if and only if the provider greets it, opens and names its session, and all that arrived can be published; a refused start is reported once |
| LoopOutcomes.RequestsAreAnsweredOnce | crates/agent-manager-broker/src/runtime.rs:534-862 | every request of the broker is replied to exactly once, with a response if and only if it succeeds, and otherwise with whether it costs the agent |
| LoopOutcomes.TurnsComeTo | crates/agent-manager-broker/src/runtime.rs:531-873 | exactly when a turn ends the loop, whether the provider's turn is open after it, and which held requests it lets go |
| LoopOutcomes.ArrivalsAreReportedInOrder | crates/agent-manager-broker/src/runtime.rs:876-926 | what arrives during a prompt, a steer or a turn is published in the order in which it arrived, and nothing else is |
| LoopOutcomes.DenialsAreAttempted | crates/agent-manager-broker/src/runtime.rs:1063-1121 | an interruption, a deadline, a lost client and the end of the loop attempt the denial of every request concerned and publish its resolution |
| LoopOutcomes.ArrivalsAreDenied | crates/agent-manager-broker/src/runtime.rs:899-926 | a request that no human is asked about is denied as it arrives |
| RequestLedger.AnsweredAtMostOnce | crates/agent-manager-broker/src/runtime.rs:1653-1923 | in every session no request is answered twice, one that is held is unanswered and still owes its answer, and none is held when the loop is over |
| RequestLedger.CodexLedger | crates/agent-manager-broker/src/codex.rs:372-440 | every server request is exactly one of: held, answered once, or attempted in vain |
| Conservation.RequestsAreConserved | crates/agent-manager-broker/src/runtime.rs:1653-1923 | published requests are those resolved, those held and the strays, and no prefix of the events resolves more than it requested |
| BrokerTasks.StepFaithful | crates/agent-manager-broker/src/embedded.rs:2263-2280 | every step keeps the counters equal to requests minus resolutions heard, and keeps running tasks in the table |
| BrokerTasks.StepHears | crates/agent-manager-broker/src/embedded.rs:1997-2095 | a step publishes the provider event it is given and no other |
| SystemSafety.NoRequestWaitsForNobody | crates/agent-manager-broker/src/durable.rs:155-202 | fail closed: in durable mode, with no ready client and drained channels, a task in its loop holds no human request |
| Warnings.WarnedIffUnseen | crates/agent-manager-broker/src/embedded.rs:2097-2107 | the converse: a durable broker warns an agent if and only if its client is lost or the agent asks a human something that no client sees |
| Warnings.WarningsHaveReasons | crates/agent-manager-broker/src/embedded.rs:491-503 | in every run every warning follows the loss of the client, or precedes the request that no client saw and that is not delivered with it |
| Warnings.NobodyIsWarnedWhileServed | crates/agent-manager-broker/src/embedded.rs:2413-2420 | over all moves, as long as a client is ready no task gets a disconnection notice that was not already on its way |
| SystemSafety.CountersAgree | crates/agent-manager-broker/src/embedded.rs:2263-2280 | until the agent fails or is let go, counter plus requests in the channel equals resolutions in the channel plus requests held plus strays |
| SystemSafety.CountersNeverSaturate | crates/agent-manager-broker/src/embedded.rs:2272-2280 | the broker never subtracts a resolution from a counter that is zero |
| SystemSafety.AnnouncedEndsAreReal | crates/agent-manager-broker/src/runtime.rs:864-873 | a task whose end is in the channel is over |
| Strays.CountersAreExactIff | crates/agent-manager-broker/src/runtime.rs:899-926 | for either provider, the broker counts exactly the requests that wait, up to what is in the channel, if and only if the provider made no request without identity and, for Codex, none while a start, prompt, steer or interruption was open |
| Strays.ClaudeCountersAreExact | crates/agent-manager-broker/src/runtime.rs:1653-1923 | for a Claude agent whose callbacks carry an identity the balance is exact |
| Strays.CodexDenialIsNeverResolved | crates/agent-manager-broker/src/codex.rs:401-405 | a Codex request denied while a prompt is being sent is published, and however the session goes on, the requests published exceed the resolutions by one more |
| Strays.StraysNeverDecrease | crates/agent-manager-broker/src/runtime.rs:899-926 | no later turn resolves a request that nobody holds |
| TurnWorker.Worker.SettleTurn | python/src/agent_manager_claude_worker/worker.py:455-463 | the loop ends when no further response is expected, and otherwise expects one less |
| TurnWorker.Worker.TurnFinished | python/src/agent_manager_claude_worker/worker.py:478-481 | the done-callback clears the registration and the counter only if they are its own |
| TurnWorker.Worker.Schedule | python/src/agent_manager_claude_worker/worker.py:365-485 | any schedule of steps leads the worker to the state of the run |
| TurnWorker.NoSteerIsLost | python/src/agent_manager_claude_worker/worker.py:400-463 | under every schedule a turn that ends normally received exactly one response more than it accepted steers |
| TurnWorker.ResponsesAreExpected | python/src/agent_manager_claude_worker/worker.py:438-463 | until it ends, a turn expects exactly the responses it has not received |
| TurnWorker.OlderTurnsAreHarmless | python/src/agent_manager_claude_worker/worker.py:478-485 | nothing but its own steps, its steers and the session's close disturbs a running turn, late done-callbacks of older turns included |
| TurnWorker.PromptsAndSteersAlternate | python/src/agent_manager_claude_worker/worker.py:365-408 | under every schedule a prompt is taken if and only if no turn is under way, and a steer if and only if one is, and then for that turn |
| TurnWorker.TurnsEndWhenComplete | python/src/agent_manager_claude_worker/worker.py:455-463 | under every schedule a turn ends normally with the response that completes its count, and with no other |
| TurnWorker.CallbacksForgetTheirTurn | python/src/agent_manager_claude_worker/worker.py:478-481 | the done-callback of the registered turn makes room for the next, and any other leaves the session alone |

## Left out

- Embedded.Broker.HandleInitialize: does not state the contents of the reply, which lists versions, bounds and settings.
- Embedded.Broker.HandleProviderEvent: does not publish the transcript patch that goes out beside the event; `Transcripts.Transcript.ApplyEvent` states it.
- Embedded.Broker.HandleRuntimeEvent: does not replace the transcript after a history response; `Transcripts.Transcript.ReplaceHistory` states it.
- Embedded.Broker.PromptAgent: does not add the user's message to the transcript, which `Transcripts.Transcript.PushUser` states, nor set the session's title.
- Embedded.Broker.LaunchAgent: starts after the shared-checkout policy and the resolution of the workspace, which only decide whether it is reached.
- Embedded.Broker.DeleteSession: the workspace handoff and the provider's deletion are outside calls, and only their common success matters to the table.
- Styler.FindEmphasisClose: occurrences of a delimiter are found on characters and converted, where the source calls its library's search on bytes.
- JSON parsing, schemas, timestamps and UUIDs: frames, events and payloads are datatypes, ids are fresh numbers, and a payload's text and model are optional strings.
- Integer width: revisions, sequences, generations and counters are unbounded; the source panics where they would overflow.
- Alphanumeric classification of characters is a parameter of the styler.
- The rendered transcripts inside the broker: each agent's transcript is modelled by its own class, not as a field of `Embedded.Broker`.
- Registry, status files, `broker/state` notifications, titles, summaries, and the contents of replies: the model records that a reply is sent, not what it says.
- Requests refused from their own fields (malformed frames, invalid options, paths or decisions) and requests that only read or run an external command: one case, `Query`, which is replied to.
- Managed workspaces, the shared-checkout policy and workspace resolution: a launch starts after them.
- Whether a command channel takes a command, and whether a write to a provider succeeds, are arbitrary choices of each step; the channel's bound of 32 only decides where a disconnection notice waits.
- Deadlines: any set of held requests may expire at any step; the order in which a hash map is listed is arbitrary.
- Provider processes, their start-up checks and the contents of their answers; a denial and an answer are both a write to the provider.
- Time: a task that is being retired may be given up at any moment.
- Cancellation of requests while the Claude worker shuts down, requests waiting for the lock of a closed session, and the worker's callback futures, which are answered or time out independently of turns.
- The Lua client, release and installation scripts, session listing, and model discovery.
