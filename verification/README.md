# Verified model of kilo2dsh

kilo2dsh is a DSH plugin in TypeScript with a Go sidecar. It gives a harness access to the free lanes
of the Kilo and OpenCode gateways. This project models the parts of both programs that keep state,
parse incrementally or promise arithmetic bounds, and proves what they guarantee for every input and
every run. `dafny verify dfyconfig.toml` checks all of it.

| part | modules | source form kept |
|---|---|---|
| event-stream framing and usage observer | `Json`, `Usage`, `Sse`, `EventStream`, `ChatParser`, `ToolTrace`, `ToolEvents`, `Observer`, `StreamUsage` | parser and observer classes, scanning loops |
| comment stripper and list compaction | `CommentStripper`, `ConfigDocument`, `Compaction` | flag loop; in place over an array |
| proxy pool and failover | `Arithmetic`, `Pool`, `Failover`, `FailoverSafety` | node, pool and cursor classes, the retry loop |
| token estimate, budget, calibration | `Estimator`, `RequestEstimate`, `Budget`, `ModelLimits`, `Adapter` | accumulating loops, expressions, the calibration map in a class, streams that overlap |
| restart supervisor | `Supervisor`, `SupervisorSafety` | a class whose events are steps of one machine |
| session ids, catalog, translators | `JsText`, `SessionId`, `Catalog`, `Messages`, `StreamChunks` | expressions, loops, the catalog class |
| shared | `Common` | expressions |

Imperative code is proved equal to a specification on values; what the programs promise is proved
about that specification, for all inputs and whole runs.

Inputs rather than models: JSON decoding and printing, SHA-256, FNV, Go's `TrimSpace` and `ToLower`,
error classification by regular expressions, parsed `Retry-After` delays, clocks, network outcomes,
cache files, process exits. Bytes in the Go parts are characters of a `string`. Numbers in the budget
are exact reals, token counts and durations are unbounded integers; counters that the code wraps
(32-bit failures, 64-bit tickets) wrap here.

## Where the code does less than it says

- `dispose()` is documented as "no more restarts" (packages/plugin/src/agent-process.ts:222). During a
  backoff the state is still `ready` without a handshake result, so an external `start()` spawns while
  a restart is pending; if that child crashes too, the first timer is no longer held by anyone and
  fires after `stop()` or `dispose()`. `RestartAfterDispose` is such a run. Halting clears everything
  exactly when the pending timers are the one held (`HaltClearsIff`), and that is so throughout a run
  exactly when no crash that is about to schedule a restart comes while one is held
  (`NeverLosesTrackIff`); a caller who does not start the agent during a backoff is safe (`TimersTidy`).
- The observer reads frame by frame and so survives a line over 16 MiB that ends a single pass
  (legacy/internal/convert/stream.go:55). The two readings agree under the limit, and otherwise exactly
  when no later frame holds a data line that its own reading gets to dispatch (`FramedIsSingleIff`).
- A declared output limit that is a fraction of one token reads as one (`RawOutputLimitIff`), a
  fractional request below one becomes a budget of zero (`BudgetIsPositiveIff`), and a fractional
  payload field between the cap and the next integer passes the last clamp (`ClampedField`). Inputs:
  `HalfTokenExample`, `ZeroBudgetExample`, `FractionExample`.
- The first restart waits the base delay even where that is above the configured maximum
  (`WaitsFollowSchedule`).
- The comment stripper run on its own output removes a second byte-order mark (`SecondPass`,
  `TwoMarksExample`).
- Round-robin tickets skip and repeat nodes when the 64-bit counter wraps off a round (`FairIff`,
  `UnfairExample`), and the 32-bit failure count restarts the cooldown doubling (`CooldownAfter`).

## Model

| member | source | states |
|---|---|---|
| Sse.Index | legacy/internal/convert/stream.go:39-40 | Leftmost occurrence of a byte pattern, or -1 when there is none. |
| Sse.BoundaryIsLeftmost | legacy/internal/convert/stream.go:38-51 | The chosen boundary is a real delimiter, and no delimiter of either width starts earlier. |
| Sse.BoundaryStable | legacy/internal/convert/stream.go:38-51 | Once a buffer has a boundary, appending any bytes leaves index and width as they are. |
| Sse.CutAppend | legacy/internal/convert/stream.go:206-218 | Cutting frames as bytes arrive gives the frames and the remainder of cutting everything at once. |
| Sse.CutCovers | legacy/internal/convert/stream.go:206-218 | Frames and remainder concatenate to the input, and every frame ends in a delimiter. |
| Sse.LinesAppend | legacy/internal/convert/stream.go:68-85 | Lines of a + b are those of a, then those of b, when a ends in a line feed. |
| Sse.ReadSse | legacy/internal/convert/stream.go:53-91 | The scanning loop calls the handler as the line fold says, up to and including the first call it refuses; it ends with that refusal, with the scanner's error exactly when a line is over-long (without a flush), or well. What the fold says is EventStream.StreamReads. |
| Sse.FrameLeavesFresh | legacy/internal/convert/stream.go:58-75 | After a complete frame the reader holds neither event name nor data lines. |
| Sse.PassAppend | legacy/internal/convert/stream.go:53-91 | Reading frame + rest is reading the frame and then the rest from a fresh reader, unless the frame broke off. |
| Sse.PassFailsIff | legacy/internal/convert/stream.go:55-89 | A pass fails if and only if some line has 16 MiB or more before its line feed. |
| Sse.FramedVersusSingle | legacy/internal/convert/stream.go:206-244 | Frame-by-frame reading makes the single pass's calls followed by exactly those the single pass lost to an over-long line. |
| Sse.PassDispatchesIff | legacy/internal/convert/stream.go:55-91 | A pass calls its handler if and only if a data line has a blank line after it with no over-long line up to there, or there is a data line and every line fits. |
| Sse.FramedIsSingleIff | legacy/internal/convert/stream.go:206-244 | Framed and single-pass reading agree if and only if no piece after one with an over-long line dispatches anything, both read off the bytes of the pieces. |
| Sse.FramedIsSingle | legacy/internal/convert/stream.go:206-244 | With every line under the scanner limit both readings make the same calls. |
| Sse.LongLineExample | legacy/internal/convert/stream.go:55-89 | A concrete stream with an over-long line on which framed reading makes one call and the single pass none. |
| EventStream.StreamReads | legacy/internal/convert/stream.go:53-91 | For every stream of the grammar: one call for every block with data lines, carrying the trimmed name of its last event line and its trimmed payloads joined by line feeds; comments and unknown lines say nothing, an open block at the end is dispatched, an over-long line ends the pass. |
| EventStream.EveryInputIsAStream | legacy/internal/convert/stream.go:53-91 | Every sequence of bytes is the text of such a stream. |
| EventStream.JoinedLines | legacy/internal/convert/stream.go:63 | Reading the joined payloads line by line gives the payloads back. |
| EventStream.OneDataLine | legacy/internal/convert/stream.go:83-84 | The stream `data:` p and a blank line makes one call, with p trimmed and no event name. |
| Observer.StreamUsageObserver.Write | legacy/internal/convert/stream.go:206-218 | New state: tally after the complete frames of buffer + data, buffer the remainder. |
| Observer.StreamUsageObserver.Finish | legacy/internal/convert/stream.go:220-226 | New state: the remainder consumed, if any, and the buffer empty; returns the usage. |
| Observer.StreamUsageObserver.Consume | legacy/internal/convert/stream.go:230-244 | New state: all calls of one pass over the frame absorbed in order. |
| Observer.StreamUsageObserver.Handle | legacy/internal/convert/stream.go:231-242 | One dispatched block: end marker, undecodable data and other protocols change nothing; a chunk advances the parser and merges every usage event. |
| Observer.WrittenAllIsOneCut | legacy/internal/convert/stream.go:206-218 | After any writes the observer is where cutting the concatenation would put it. |
| Observer.ObservedIsFramed | legacy/internal/convert/stream.go:206-244 | For every chunking, with no condition on lines, the observation is that of the pieces of the whole stream. |
| Observer.ChunkingIndependence | legacy/internal/convert/stream.go:206-244 | Two ways of cutting the same bytes into writes end in the same usage, reported flag and parser state. |
| Observer.ObservedIsOnePass | legacy/internal/convert/stream.go:206-244 | Under the line limit the observation is one unframed pass over the concatenation. |
| Observer.ObserveStream | legacy/internal/gateway/gateway.go:249-252 | Creating, feeding and finishing an observer yields the usage and flag of the whole stream, and of the single pass under the line limit. |
| StreamUsage.TallyIsSummary | legacy/internal/convert/stream.go:93-107 | The tally is a function of the decoded chunks: usage merge of their usage objects, flag iff there is one, parser state of one run over them. |
| StreamUsage.ObservedSummary | legacy/internal/convert/stream.go:206-266 | For any stream in any chunking, over-long lines included: usage, flag and parser state from the chunks its pieces carry, total a high-water mark, other fields their last non-zero report. |
| StreamUsage.SummaryOfOnePass | legacy/internal/convert/stream.go:206-266 | Under the line limit the same summary is that of one pass over the whole stream. |
| StreamUsage.ObservedStream | legacy/internal/convert/stream.go:206-266 | For any stream of the grammar without an over-long line, in any chunking, the summary is that of what its blocks say. |
| StreamUsage.OneReportObserved | legacy/internal/convert/stream.go:206-266 | From bytes to numbers: one data line that decodes to a chunk with prompt and completion counts is observed as exactly those, with their sum as total, in any chunking. |
| StreamUsage.NothingLearned | legacy/internal/convert/stream.go:93-107 | Streams of other protocols and end markers teach nothing. |
| Usage.UsageRoundTrip | legacy/internal/convert/convert.go:157-172 | For all integers, a usage object in the Chat or in the Responses spelling, nested details included, reads back as the numbers it was written from, with input + output for a missing or zero total. |
| Usage.BothSpellings | legacy/internal/convert/convert.go:157-181 | With both spellings present the Chat one wins unless it is zero; cache writes are taken from the first non-zero of four places, in order. |
| Usage.PlainRoundTrip | legacy/internal/convert/convert.go:157-163 | The same for reports of two or three numbers. |
| Usage.FractionsAreCut | legacy/internal/convert/convert.go:157-224 | Counts that are not whole are cut toward zero as they are read. |
| Usage.MergeAllFields | legacy/internal/convert/stream.go:246-266 | Input, Output, Cached, CacheCreation and Reasoning each equal their last non-zero report. |
| Usage.MergeAllTotal | legacy/internal/convert/stream.go:253-265 | Total is the least number above every reported total and every running Input + Output; it is at least Input + Output. |
| Usage.TotalNeverDecreases | legacy/internal/convert/stream.go:253-265 | Total never falls while reports arrive. |
| ChatParser.BridgeStreamParser.ParseChat | legacy/internal/convert/stream.go:110-169 | Parser state and events after one chunk are those of the request-by-request state machine. |
| ChatParser.BridgeStreamParser.ParseToolCall | legacy/internal/convert/stream.go:131-153 | One tool call: first mention, latest id, merged name, start when due, delta. |
| ChatParser.BridgeStreamParser.ParseStop | legacy/internal/convert/stream.go:154-166 | An error finish yields one error event; any other starts all pending named tools, then finishes. |
| ChatParser.RunAppend | legacy/internal/convert/stream.go:110-169 | Running two request lists one after the other is running their concatenation. |
| ChatParser.ChunkIsRead | legacy/internal/convert/stream.go:110-169 | Which fields of a chunk become which requests, for any chunk written by its sender: id and model, usage if not empty, and per choice reasoning (the older field if the newer is blank), text, calls by index or id, and the finish reason or its failure. |
| ChatParser.NameFragments | legacy/internal/convert/stream.go:180-188 | A fragment that repeats or extends the name so far replaces it, any other is appended. |
| ToolTrace.RunTrace | legacy/internal/convert/stream.go:110-169 | For every run: one named start per key at most, no named delta before its start, shown names only extended at the end; flags and trace agree. |
| ToolTrace.RunHistory | legacy/internal/convert/stream.go:131-145 | Order, ids and names of the parser equal first-mention order, latest non-empty id and merged fragments of the history. |
| ToolTrace.StartedIffDue | legacy/internal/convert/stream.go:146-163 | A key has been started if and only if arguments for it, or a finish, came while it had a name. |
| ToolTrace.FinishStartsNamed | legacy/internal/convert/stream.go:159-166 | After a finish every tool with a name has been started, and the finish event is the last. |
| ToolTrace.NameGrows | legacy/internal/convert/stream.go:180-188 | A key's merged name at any time is a prefix of its later names. |
| ToolTrace.ParserRun | legacy/internal/convert/stream.go:110-169 | All of the above for a fresh parser over any list of decoded chunks: trace, started keys, names, ids, and the order of first mention, duplicate-free and listing exactly the keys. |
| ToolEvents.EventsAreAnswers | legacy/internal/convert/stream.go:110-169 | Leaving out tool starts, the events of a run are exactly the answers to its requests in order: texts and usage as they are, arguments with the id and name of that moment, one stream start at the first response id, one finish per finish reason. |
| ToolEvents.StartsComeWhenDue | legacy/internal/convert/stream.go:146-165 | Every tool start comes from the request that first makes it due, with the id and name of that moment. |
| CommentStripper.StripJsonComments | legacy/internal/config/config.go:239-302 | The four-flag loop computes the mode machine's answer. |
| CommentStripper.LayoutKept | legacy/internal/config/config.go:239-302 | Same length; each byte is the input's or a space; line breaks stay in place and none is added. |
| CommentStripper.OutputIsFree | legacy/internal/config/config.go:239-302 | No comment opener remains outside a string in the output. |
| CommentStripper.FreeIsUnchanged | legacy/internal/config/config.go:239-302 | A text without comments comes back unchanged and is never an error. |
| CommentStripper.SecondPass | legacy/internal/config/config.go:239-302 | A second pass is the identity if and only if the input did not start with two byte-order marks; otherwise it removes the second one. |
| CommentStripper.TwoMarksExample | legacy/internal/config/config.go:239-302 | Two byte-order marks: one is left by the first pass, none by the second. |
| ConfigDocument.StripsDocument | legacy/internal/config/config.go:239-302 | On every text of the grammar: strings and code unchanged, comments blanked with line breaks kept, error iff the text ends inside a block comment. |
| ConfigDocument.EveryTextIsADocument | legacy/internal/config/config.go:239-302 | Every text has a reading in that grammar. |
| ConfigDocument.StripIsShown | legacy/internal/config/config.go:239-302 | The answer for any input, byte-order mark included, in terms of its reading; byte by byte, a comment's bytes are spaces or its own line breaks, and every other byte is the input's. |
| ConfigDocument.ShownByteByByte | legacy/internal/config/config.go:254-281 | For every reading: each byte of a comment, delimiters included, is shown as a space unless it is a line break; all other bytes are shown as they are. |
| Compaction.UniqueStrings | legacy/internal/config/config.go:450-461 | In place over the shared array: the prefix holds the first occurrences in order, the rest of the array is untouched. |
| Compaction.FirstsKeepsFirsts | legacy/internal/config/config.go:450-461 | The kept items sit at increasing positions, and a position is kept exactly when its item did not occur before. |
| Compaction.FirstsIsTheSet | legacy/internal/config/config.go:450-461 | The kept items are the listed items, each once. |
| Compaction.TrimList | legacy/internal/config/config.go:463-471 | In place: the prefix holds the non-blank trimmed items in order, the rest of the array is untouched. |
| Compaction.TrimmedTwice | legacy/internal/config/config.go:463-471 | Trimming a trimmed list changes nothing, for every trim that is stable on its own results. |
| Compaction.TrimmedKeepsTexts | legacy/internal/config/config.go:463-471 | The kept texts sit at increasing positions, which are exactly those of the items that are not blank, each trimmed. |
| Pool.AnonymousPool.CursorFor | legacy/internal/pool/pool.go:80-93 | Start by ticket without an affinity, by its hash with one; the counter advances, wrapping at 2^64, only for tickets. |
| Pool.AnonymousCursor.Next | legacy/internal/pool/pool.go:95-109 | Returns the first eligible node at or after the offset and moves past it; nil iff none is eligible. |
| Pool.TurnsDiffer | legacy/internal/pool/pool.go:101-103 | Different offsets of one cursor are different nodes. |
| Pool.TurnsGoUp | legacy/internal/pool/pool.go:101-103 | From its start a cursor goes up one node at a time and wraps at the last. |
| Pool.FairIff | legacy/internal/pool/pool.go:80-93 | n consecutive tickets start at n different nodes if and only if the counter does not wrap among them or n divides 2^64. |
| Pool.CursorsTakeTickets | legacy/internal/pool/pool.go:84-92 | Cursors without an affinity take consecutive tickets from any counter value on; one with an affinity starts where its hash says. |
| Pool.UnfairExample | legacy/internal/pool/pool.go:80-93 | Three nodes and a counter at its last value: the first two tickets name the same node. |
| Pool.EveryNodeServed | legacy/internal/pool/pool.go:80-93 | Under that condition each node is the start of one of the n tickets. |
| Pool.AnonymousNode.MarkSuccess | legacy/internal/pool/pool.go:111-117 | Failures and cooldown cleared, health kept. |
| Pool.AnonymousNode.MarkFailure | legacy/internal/pool/pool.go:119-134 | Nothing for unpenalised answers; otherwise failure count and cooldown as the outcome demands. |
| Pool.AnonymousNode.Sync | legacy/internal/gateway/gateway.go:381-396 | A proxy failure makes the node unhealthy, any answer with status 200 to 599 healthy. |
| Pool.CooldownAfter | legacy/internal/pool/pool.go:119-134 | After k failures in a row: base delay doubled k-1 times, capped at eight times, or Retry-After if longer; the 32-bit count restarts the doubling. |
| Failover.DoAnonymousUpstream | legacy/internal/gateway/gateway.go:287-339 | Reply and trace of the loop over the pool, whatever other requests do to the nodes between its looks and while an exchange is in flight. |
| Failover.TryNext | legacy/internal/gateway/gateway.go:296-330 | One round: node taken, held response drained, request sent, node settled from the condition it is then in. |
| FailoverSafety.TriesRotate | legacy/internal/gateway/gateway.go:296-301 | Nodes are tried in rotation order from the cursor's start, at increasing offsets. |
| FailoverSafety.TriedNodesDiffer | legacy/internal/gateway/gateway.go:296-301 | No node is tried twice. |
| FailoverSafety.SkipsOnlyUnusable | legacy/internal/pool/pool.go:101-107 | When the loop runs out, every untried node was unhealthy or cooling when passed. |
| FailoverSafety.StopsAtFirstSuccess | legacy/internal/gateway/gateway.go:318-338 | All attempts but the last were sent and unsuccessful; the answer is the last attempt's response, or an error if it had none. |
| FailoverSafety.StopsByStatus | legacy/internal/gateway/gateway.go:294-338 | By status: every attempt but the last was sent and not answered with 200 to 299; if the last was not either, every node without an attempt was down or cooling when looked at; an answer of 200 to 299 is the reply. |
| FailoverSafety.SettlesEachAttempt | legacy/internal/gateway/gateway.go:312-324 | Over the whole loop every attempt that was sent settles the node it tried, once, by its own outcome: 200 to 299 clears it; other answers below 500 except 401, 403 and 429 leave it; everything else counts a failure and waits 1, 2, 4 or 8 base delays, or Retry-After if longer. |
| FailoverSafety.SuccessClearsItsNode | legacy/internal/gateway/gateway.go:318-321 | The answer of 200 to 299 that ends the loop leaves its node healthy, without failures or cooldown. |
| FailoverSafety.BodiesAccountedFor | legacy/internal/gateway/gateway.go:302-338 | Every response body is obtained once and drained exactly once unless it is the one returned; never two open together. |
| FailoverSafety.AlwaysInOrder | legacy/internal/gateway/gateway.go:302-338 | The same account is in order at every point of the trace. |
| Estimator.ShortRunTokens | packages/plugin/src/adapter/budget.ts:218-257 | The flushing machine returns the sum over wide code points and maximal same-class fragments. |
| Estimator.LongRunTokens | packages/plugin/src/adapter/budget.ts:269-305 | The counting loop returns the table charge of the run's class counts. |
| Estimator.TextTokens | packages/plugin/src/adapter/budget.ts:308-328 | The accumulating loop returns the cost of the simple split into runs and gaps. |
| Estimator.SplitAtGap | packages/plugin/src/adapter/budget.ts:308-328 | cost(a + gap + b) = cost(a) + cost(b) plus a sixteenth of a token for a space, half of one for a line feed or tab. |
| Estimator.SplitBetweenClasses | packages/plugin/src/adapter/budget.ts:218-257 | A short run's cost splits between two classes and beside a wide code point. |
| Estimator.LoneRun | packages/plugin/src/adapter/budget.ts:308-328 | A text without gaps is charged by the short rule up to 16 UTF-16 units and by the long rule beyond. |
| Estimator.FragmentInNumbers | packages/plugin/src/adapter/budget.ts:218-257 | A letter fragment of six or more with fewer than 28% vowels costs length / 1.2; any other one token for every 3.6 letters, 2.6 digits or 1.7 signs, rounded down, at least one. |
| Estimator.TableInNumbers | packages/plugin/src/adapter/budget.ts:295-305 | On the counts: when a long run is charged as structured text, as data or as a word, and at which rates. |
| Estimator.CountsAreNumbers | packages/plugin/src/adapter/budget.ts:269-294 | The counters are the numbers of letters, digits, signs, wide code points, emoji and vowels. |
| Estimator.WideText | packages/plugin/src/adapter/budget.ts:218-305 | Text beyond ASCII costs 1.1 tokens a character and three an emoji, by the short rule as by the long one. |
| Estimator.FragmentsExample | packages/plugin/src/adapter/budget.ts:207-217 | The documented `dur=42ms` costs four tokens. |
| Estimator.TextBounded | packages/plugin/src/adapter/budget.ts:86-136 | n code points cost between n/16 and 3n tokens, in every mix of classes. |
| Estimator.BoundsAreTight | packages/plugin/src/adapter/budget.ts:86-136 | Spaces meet the lower bound and short emoji runs the upper one. |
| RequestEstimate.EstimateRequestTokens | packages/plugin/src/adapter/budget.ts:375-390 | The request loops return the rounded-up sum of its parts. |
| RequestEstimate.BlockTokens | packages/plugin/src/adapter/budget.ts:335-354 | The cost of a block, nested tool results included. |
| RequestEstimate.EstimateGrows | packages/plugin/src/adapter/budget.ts:335-390 | Appending messages, or blocks at any depth, never lowers the estimate; each new message adds at least four. |
| RequestEstimate.EstimateInParts | packages/plugin/src/adapter/budget.ts:335-390 | The estimate is the rounded-up sum of 256, the system text, four per message, every block by itself at whatever depth it is nested, and each tool's name, description and printed parameters, or 256 for parameters that cannot be printed. |
| RequestEstimate.CostIsFlat | packages/plugin/src/adapter/budget.ts:335-354 | Every block is charged exactly once, however deep it sits in tool results: texts by their cost, calls and results eight more, images 3200. |
| RequestEstimate.EstimateIsPositive | packages/plugin/src/adapter/budget.ts:375-390 | Every request is charged at least its envelope. |
| Budget.BudgetFits | packages/plugin/src/adapter/budget.ts:461-474 | Prompt + answer + margin within the window; the budget is the largest that fits request, cap and room; refusal iff less than 2048 is left. |
| Budget.CalibrationScales | packages/plugin/src/adapter/budget.ts:466-470 | For every estimate e >= 0 and calibration c in [0.5, 4] the effective prompt size is e c rounded up. |
| Budget.OddInputsActAs | packages/plugin/src/adapter/budget.ts:466-469 | A calibration below 0.5 or above 4 acts as that bound, a missing or non-finite one as 1; a negative or non-finite estimate acts as 0. |
| Budget.CalibrationIsAntitone | packages/plugin/src/adapter/budget.ts:461-474 | A larger calibration gets no larger budget and keeps a refusal. |
| Budget.CalibrationExample | packages/plugin/src/adapter/budget.ts:461-474 | One request that is sent without a calibration and refused, at 200000 effective tokens, with a calibration of 2. |
| Budget.BudgetInNumbers | packages/plugin/src/adapter/budget.ts:461-474 | For whole numbers, with a margin of two per cent rounded up but at least 1024: with less than 2048 left beside prompt and margin a refusal, and otherwise the least of request, limit, window and what is left. |
| Budget.BudgetIsPositiveIff | packages/plugin/src/adapter/budget.ts:441-445 | A sent budget is at least one exactly when the request is not a fraction in (0, 1), and zero then. |
| Budget.ZeroBudgetExample | packages/plugin/src/adapter/budget.ts:441-474 | Half a token requested from a window of 262144: a request with a budget of zero is sent. |
| Budget.BudgetIsAntitone | packages/plugin/src/adapter/budget.ts:461-474 | A larger estimate gets no larger budget and keeps a refusal. |
| Budget.OverflowPersists | packages/plugin/src/adapter/budget.ts:461-474 | Once a conversation is refused every extension of it is, at the same calibration; budgets only shrink. |
| Budget.BlendedStaysWithin | packages/plugin/src/adapter/budget.ts:404-410 | The factor stays in [0.5, 4] and within any interval that holds the clamped observations. |
| Budget.RepeatedObservation | packages/plugin/src/adapter/budget.ts:404-410 | n equal observations leave exactly 0.7^n of the distance to the clamped value. |
| ModelLimits.PositiveLimits | packages/plugin/src/adapter/catalog.ts:485-494 | Collects exactly the limits some record declares under some key. |
| ModelLimits.ResolveLimits | packages/plugin/src/adapter/catalog.ts:496-515 | Window and output limit are the smallest declared ones or the defaults, the latter within window, gateway ceiling and window share. |
| ModelLimits.PromptAndAnswerFit | packages/plugin/src/adapter/catalog.ts:496-515 | From directory record to wire: the sum is within every declared context limit, read as an integer or as written; the budget within every output limit, the ceiling and a quarter of the window. |
| ModelLimits.DeclaredIsKept | packages/plugin/src/adapter/catalog.ts:496-515 | A declared window is kept, and a declared limit as far as a quarter of the window and the gateway's ceiling allow, that being 524288 unless configured or switched off; a prompt that leaves room for it is sent with all of it. |
| ModelLimits.RawOutputLimitIff | packages/plugin/src/adapter/catalog.ts:231-235 | An output limit as written is kept if and only if it is at least one or the request is itself a fraction below one. |
| ModelLimits.HalfTokenExample | packages/plugin/src/adapter/catalog.ts:231-235 | A record with an output limit of half a token, for which one token is sent. |
| ModelLimits.ClampPayload | packages/plugin/src/adapter/kilo-adapter.ts:140-152 | Replaces the two token fields whose integer reading exceeds the cap and nothing else. |
| ModelLimits.ClampedField | packages/plugin/src/adapter/kilo-adapter.ts:113-152 | After the clamp the integer reading is at most the cap; the number as written exceeds it iff it came in strictly between cap and cap + 1. |
| ModelLimits.FractionExample | packages/plugin/src/adapter/kilo-adapter.ts:140-152 | A payload field of 100.5 under a cap of 100 comes out unchanged. |
| Adapter.KiloAdapter.Begin | packages/plugin/src/adapter/kilo-adapter.ts:442-519 | A stream up to its request: refused, not convertible, too large, or sent with the budget of the factor of this moment and the clamped, then decorated payload. |
| Adapter.KiloAdapter.End | packages/plugin/src/adapter/kilo-adapter.ts:520-543 | The rest of a stream: the sample of a drained, error-free, reporting stream is blended into the factor of that moment; any other leaves the factors alone. |
| Adapter.LiveIffWaiting | packages/plugin/src/adapter/kilo-adapter.ts:442-543 | After any run of overlapping streams, a stream waits for chunks exactly when it was allowed, convertible and within budget as it began and has not been read since. |
| Adapter.KiloAdapter.Watch | packages/plugin/src/adapter/kilo-adapter.ts:526-536 | The last positive prompt size reported and whether an error finish was seen. |
| Adapter.ReportedIs | packages/plugin/src/adapter/kilo-adapter.ts:526-534 | The sample counts input, cache reads and cache writes of the last usage chunk where their sum is positive. |
| Adapter.FactorIsBlend | packages/plugin/src/adapter/kilo-adapter.ts:468-543 | After any run of overlapping streams each model's factor is the blend of that model's own samples in the order the streams ended, absent iff there are none. |
| Adapter.FactorStaysWithin | packages/plugin/src/adapter/kilo-adapter.ts:537-542 | After any run every factor lies in [0.5, 4] and between the least and greatest clamped sample of its model. |
| Adapter.LearnsOnlyFromSuccess | packages/plugin/src/adapter/kilo-adapter.ts:444-543 | At every event of every run: factors change only when a stream that had sent its request ends drained, error-free and with a usage report, and then only its own model's, by its own ratio, on top of what was learned meanwhile. |
| Adapter.SentRequestFits | packages/plugin/src/adapter/kilo-adapter.ts:460-519 | What is sent fits every declared limit whatever has been learned: prompt size is the estimate times the factor stored for the model, rounded up; no token field of the payload handed to the decorator reads as more than the budget. |
| Adapter.SentUsesWhatWasLearned | packages/plugin/src/adapter/kilo-adapter.ts:460-467 | After any run of overlapping streams, the next request of a model with a factor is sized by exactly that factor. |
| Adapter.FirstLessonIsTheRatio | packages/plugin/src/adapter/kilo-adapter.ts:537-542 | The first lesson about a model is stored as reported over estimated prompt tokens. |
| Supervisor.AgentProcess.On | packages/plugin/src/agent-process.ts:82-247 | Every event moves the object exactly as the state machine says. |
| Supervisor.AgentProcess.OnExit | packages/plugin/src/agent-process.ts:167-198 | Stable-run reset, crash count, breaker, backoff and new timer after an unexpected exit. |
| Supervisor.AgentProcess.HaltNow | packages/plugin/src/agent-process.ts:207-220 | stop() up to its first wait: timer cleared, stopped at once or waiting. |
| SupervisorSafety.AlwaysQuiet | packages/plugin/src/agent-process.ts:207-226 | In every reachable state, stopping or disposed implies that the timer field is empty. |
| SupervisorSafety.HaltClearsIff | packages/plugin/src/agent-process.ts:207-226 | After any run, stop() and dispose() each leave no restart pending if and only if the pending timers are just the one held. |
| SupervisorSafety.NeverLosesTrackIff | packages/plugin/src/agent-process.ts:167-226 | That holds at every point of a run if and only if no exit in it comes while a restart is held and is about to schedule another: the live child of an undisposed, unstopped supervisor, below the breaker. |
| SupervisorSafety.TimersTidy | packages/plugin/src/agent-process.ts:82-87 | What a caller can keep to: without a start that cuts in on a pending restart, the only pending timer is the one held, and none is while stopping or disposed. |
| SupervisorSafety.RestartAfterDispose | packages/plugin/src/agent-process.ts:222-226 | A run in which a restart is still pending after dispose() and then spawns the agent. |
| SupervisorSafety.WaitsFollowSchedule | packages/plugin/src/agent-process.ts:174-191 | Every crash of every run: stable iff the agent had been ready for 30 s; carries the count since the last stable run; the first wait is d and the k-th, k > 1, min(d 2^(k-1), M), so a wait is above M iff k = 1 and d > M; the breaker trips exactly from the configured count on. |
| SupervisorSafety.TimedSpawnsAreScheduled | packages/plugin/src/agent-process.ts:192-197 | Timed spawns plus pending timers never exceed the restarts scheduled. |
| SupervisorSafety.SpawnsLimited | packages/plugin/src/agent-process.ts:182-198 | Without a stable run, spawns are at most the external starts plus maxConsecutiveCrashes - 1. |
| SupervisorSafety.TrippedRefuses | packages/plugin/src/agent-process.ts:82-88 | After any run that left the breaker tripped with nothing else under way: whatever happens short of a stop, nothing is spawned and it stays tripped. |
| SupervisorSafety.TripBreaks | packages/plugin/src/agent-process.ts:182-186 | A trip leaves that state; a stop after it lets the next start spawn. |
| SupervisorSafety.FailedStartAllowsAnother | packages/plugin/src/agent-process.ts:104-118 | A failed handshake refuses starts until its child is gone and then allows the next one. |
| SupervisorSafety.StoppingNeverRestarts | packages/plugin/src/agent-process.ts:167-173 | While stopping or disposed, a child's end schedules nothing; while stopping it leaves the supervisor stopped. |
| SupervisorSafety.StopAllowsAnother | packages/plugin/src/agent-process.ts:207-220 | stop() is over at once without a running child, and otherwise when its wait ends; the next start then spawns. |
| SupervisorSafety.OneStartAtATime | packages/plugin/src/agent-process.ts:82-127 | A start spawns; until the child has crashed every further start is refused, before and after its handshake; during the backoff one is not. |
| SessionId.ComputeSessionId | packages/plugin/src/adapter/ids.ts:102-109 | The code with its tail loop computes the id function. |
| SessionId.AlwaysCanonical | packages/plugin/src/adapter/ids.ts:65-109 | Every seed's id has the session shape and the descending time layout. |
| SessionId.Idempotent | packages/plugin/src/adapter/ids.ts:102-109 | Canonicalising twice is canonicalising once. |
| SessionId.PassesThroughIff | packages/plugin/src/adapter/ids.ts:103-104 | The id is the trimmed seed if and only if that already is canonical. |
| SessionId.TimePartDecodes | packages/plugin/src/adapter/ids.ts:82-91 | Reading the twelve hex digits back and inverting gives the timestamp above and counter one below. |
| SessionId.TimestampDecodes | packages/plugin/src/adapter/ids.ts:83-88 | Each digest byte used can be read off the timestamp. |
| SessionId.HashedIdDecodes | packages/plugin/src/adapter/ids.ts:105-108 | From a hashed id the first 36 digest bits can be read back, and each of bytes 6 to 19 modulo 62. |
| SessionId.TailDecodes | packages/plugin/src/adapter/ids.ts:106-107 | Reading the tail back in the alphabet 0-9, A-Z, a-z gives every byte modulo 62, in order. |
| SessionId.FieldsDoNotOverlap | packages/plugin/src/adapter/ids.ts:83-89 | OR of the shifted fields is their sum, and the masked NOT is the 48-bit complement. |
| Catalog.DecodeKiloModels | packages/plugin/src/adapter/catalog.ts:387-400 | The loop returns the normalised records, first of each id. |
| Catalog.DecodeIsClean | packages/plugin/src/adapter/catalog.ts:377-400 | Decoded ids are distinct, trimmed and not empty. |
| Catalog.DecodeByPosition | packages/plugin/src/adapter/catalog.ts:377-400 | Exactly the rows survive that are records with an id not blank and not had before, in order, with trimmed id and name, the id standing in for a blank name. |
| Catalog.DecodeTwice | packages/plugin/src/adapter/catalog.ts:387-400 | Decoding decoded records changes nothing: the cache round trip. |
| Catalog.ModelCatalog.RefreshGateway | packages/plugin/src/adapter/catalog.ts:702-729 | New snapshot, time and error of one refresh, cache fallback and failing cache write included. |
| Catalog.RefreshReports | packages/plugin/src/adapter/catalog.ts:702-729 | The error after a refresh: none after a success, otherwise what was thrown, that the answer was empty, or that the cache could not be written; a cache's models come with its own time. |
| Catalog.CacheRescues | packages/plugin/src/adapter/catalog.ts:719-726 | A failed refresh of an empty directory takes the cache's models exactly when it is readable and at most seven days old. |
| Catalog.DecisionAfterRuns | packages/plugin/src/adapter/catalog.ts:736-753 | After any run with a fetch that brought decoded models: a model is allowed exactly when its trimmed name is the id of a free, text-answering, tool-capable model of the last such fetch; one that fetch lacks is refused as missing. |
| Catalog.ModelCatalog.List | packages/plugin/src/adapter/catalog.ts:756-763 | Static list while empty; otherwise strictly sorted, and exactly the snapshot ids whose decision is allowed, in whatever order the snapshot is visited. |
| Catalog.RefreshKeeps | packages/plugin/src/adapter/catalog.ts:702-729 | A refresh never empties a filled snapshot, a failed one leaves it and its time as they are, and the cache is used only while empty. |
| Catalog.SnapshotOverRuns | packages/plugin/src/adapter/catalog.ts:702-729 | Over any run a filled snapshot stays filled and is that of the last fetch that brought models. |
| Catalog.ListingOfLastFetch | packages/plugin/src/adapter/catalog.ts:702-763 | Whatever was fetched, failed or read from the cache before: the listing is the sorted ids of the free, text-answering, tool-capable models of the last fetch that brought any. |
| Catalog.ListingOverRuns | packages/plugin/src/adapter/catalog.ts:702-763 | After any run of decoded answers an id is listed exactly when the record filed under it is free, answers text and can use required tools; two listings never differ. |
| JsText.TrimIs | packages/plugin/src/adapter/catalog.ts:377-384 | Trimming takes the white space at both ends, all of it, and nothing else. |
| JsText.LessIs | packages/plugin/src/adapter/catalog.ts:762 | The sort order: at the first place where two ids differ the smaller or shorter one comes first. |
| Messages.Convert | packages/plugin/src/adapter/messages.ts:182-223 | The map-filling conversion equals the one that looks back for every name. |
| Messages.ResultsMatchCalls | packages/plugin/src/adapter/messages.ts:200-216 | Result messages correspond one for one, in order, to the tool-result blocks, each named after the latest earlier call with its id. |
| Messages.LatestNameIs | packages/plugin/src/adapter/messages.ts:182-216 | That name is the one of the last call with the id, wherever it stands, or "unknown" if there is none. |
| Messages.ResultTextIsLeaves | packages/plugin/src/adapter/messages.ts:142-146 | Result text is the in-order text leaves of the nested tree. |
| Messages.BlockInPlace | packages/plugin/src/adapter/messages.ts:104-147 | Any block of any message: what the message gives is what stands before the block, what a block of its kind gives, and what stands after, for assistant blocks, system text, user parts, results and calls. |
| Messages.UserMessageIff | packages/plugin/src/adapter/messages.ts:204-210 | A user message becomes one of its own unless it shows nothing and only brings results; with a resolved image it is a list of parts, and otherwise its texts joined; its answers follow. |
| Messages.AnswerIs | packages/plugin/src/adapter/messages.ts:211-219 | One result gives one answer: same id, the latest call's name, all text leaves or a note, the error flag. |
| Messages.ContextIsReplayed | packages/plugin/src/adapter/messages.ts:182-223 | Leaving out the answers, a converted conversation is exactly its messages in order: system text if not empty, what user messages show, and the assistant's blocks, marked when they call tools. |
| Messages.FailsIffAssistantImage | packages/plugin/src/adapter/messages.ts:116-117 | Conversion fails if and only if an assistant message holds an image block. |
| StreamChunks.ToStreamChunks | packages/plugin/src/adapter/events.ts:130-196 | The generator yields the chunks up to the first terminal event and throws iff there is none; tool deltas carry the latest start of their index. |
| StreamChunks.LatestStartIs | packages/plugin/src/adapter/events.ts:130-170 | What a tool delta carries is what the last tool start at its index carried, or nothing if there is none. |
| StreamChunks.TerminatedStream | packages/plugin/src/adapter/events.ts:76-195 | Whatever follows a terminal event: the mapped prefix, then exactly one usage that reads back as the gateway's and one finish, whose reason is characterised in both directions, context overflow first. |
| StreamChunks.ChunksMirrorEvents | packages/plugin/src/adapter/events.ts:130-184 | Before its end a stream gives one chunk for every event but the opening one, in order, about the same block and with the same text. |
| StreamChunks.ToolDeltaLabels | packages/plugin/src/adapter/events.ts:148-168 | A tool delta carries the id that the last tool start of its index showed, wherever that was, and its name unless that is empty. |

## Left out

- HTTP handlers, header builders, request construction, SDK calls, logging, file access, process spawning: input and output only.
- refreshAnonymousTier: the same cursor loop without response bodies.
- CheckHealth: it only sets the health flag, which the failover loop already sees as arbitrary.
- A transport error that comes with a response whose body is already closed: the loop is modelled with one or the other.
- Pool.AnonymousNode.MarkFailure: durations do not overflow 64 bits here.
- Usage.MergeAllTotal: token counts are unbounded integers, not 64-bit ones.
- Estimator.TextBounded: says nothing about agreement with a real tokenizer, and rounding of IEEE doubles is not modelled.
- Sse.ReadSse: the 64 KiB start buffer of the scanner is not modelled, only the limit it grows to.
- Supervisor.AgentProcess.On: whether a wait for a handshake or an exit ever ends is not modelled, nor are the Windows kill commands.
- SupervisorSafety.WaitsFollowSchedule: delays are taken to be non-negative, as they are configured.
- SessionId.ComputeSessionId: the shifted fields are added rather than combined with OR; FieldsDoNotOverlap is the reason that this is the same.
- Catalog.ModelCatalog.RefreshGateway: refreshes run one at a time; overlapping ones can interleave between the emptiness test and the write.
- Catalog.ModelCatalog.List: ids are ordered by code point, which differs from UTF-16 order only beyond the basic plane.
- Messages.Convert: timestamps, usage zeros, provider names, system prompt and tool list are constants or copies and are not modelled.
- StreamChunks.ToStreamChunks: the harness pulls chunks one by one; here they are a list.
- ModelLimits.ResolveLimits: a model record and its nested limit objects are given as one list of records, their fields already read as numbers.
- Adapter.KiloAdapter.Begin: what a payload decorator does is its own affair; the bound is on what it is given.
- Static model lists, tool definitions, identity strings, settings, free-model classifiers: table data.
