# Voice-agent pipeline core: greeting gate, TTS lock, Strands bridge, metrics panel, knowledge-base tool

This project models, in Dafny, the parts of the Pipecat voice-agent workshop
that hold logic of their own:

- **Greeting gate** (`greeting.dfy`). The first conversation-context frame
  that travels downstream is swallowed. A frame that speaks the configured
  greeting takes its place. After that the processor forwards everything.
- **TTS lock processors** (`tts_lock.dfy`). One shared lock is taken on a
  response-start marker and released on a response-end marker. The frame
  classes that count as markers are a parameter of the processor:
  - the root `utils.py` tests against marker classes it declares itself;
  - the archived copy tests against Pipecat's own classes.
- **Two-branch scheduling** (`lock_scheduling.dfy`). This is the parallel
  pipeline of `bot-advanced.py`. Each branch runs acquire, then TTS, then
  release, over one lock. The scheduler interleaves their steps in any order.
  - With Pipecat's markers, no schedule lets both branches be inside a
    marker-bracketed response at once. Speech that carries no markers, such
    as the Strands processor's answer, is not covered by the lock.
  - With the local marker classes, the lock is never taken (see Findings).
- **Strands bridge** (`strands_bridge.dfy`).
  - A request frame is answered by one frame that speaks the agent's final
    text.
  - The agent callback queues the assistant's intermediate texts until the
    turn ends.
  - A drain loop turns each queued text into a "specialist-thinking" server
    message, first in first out.
- **Metrics panel** (`metrics.dfy`).
  - The `Connected` reset.
  - Per-processor rolling histories of the last 100 time-to-first-byte samples.
  - Cumulative token counters, including JavaScript's `undefined + n = NaN`.
  - The processor colour hash with its exact 32-bit shift.
- **Knowledge-base tool** (`knowledge_base.dfy`, with `text.dfy`).
  - Query enhancement and the hybrid-then-semantic retrieval fallback.
  - Rendering of the top five passages.
  - The error and not-found answers.
  - The guard that answers a tool call without a query.

The retrieval service, the Strands agent and the LLM agent are function
parameters. Clocks enter as timestamp parameters.

## Model

| member | source | states |
|---|---|---|
| Greeting.GreetingProcessor.constructor | utils.py:19-22 | the processor starts ungreeted, with the given greeting and nothing pushed |
| Greeting.GreetingProcessor.ProcessFrame | utils.py:24-43 | one frame is handled by the gate rule: upstream frames pass unchanged; the first downstream context frame becomes a greeting frame and sets the flag; the flag never goes back to false |
| Greeting.GreetedIsTransparent | utils.py:31-32 | once greeted, the gate forwards every stream unchanged, context frames included |
| Greeting.NoMarkerIsTransparent | utils.py:42-43 | a stream without a downstream context frame passes unchanged and leaves the gate ungreeted |
| Greeting.GreetRunReplacesFirstMarker | utils.py:24-43 | over any stream, the output equals the input except that the first downstream context frame is replaced by one greeting frame; the gate ends greeted exactly when such a frame existed |
| Greeting.GreetRunOneForOne | utils.py:24-43 | exactly one frame is pushed per frame handled, and the greeted flag is monotone |
| Greeting.FirstMarker | utils.py:37 | finds the position of the first downstream context frame, or reports that there is none |
| TtsLock.Lock.constructor | bot-advanced.py:115 | a new lock is free |
| TtsLock.LockAfterAcquire | utils.py:56-59 | a start marker is admitted only on a free lock, and leaves it held; any other frame leaves the lock alone |
| TtsLock.LockAfterRelease | utils.py:75-79 | an end marker leaves the lock free, and releasing a free lock is a no-op; any other frame leaves the lock alone |
| TtsLock.TTSLockAcquireProcessor.constructor | utils.py:49-51 | the root processor shares the given lock and recognises the marker classes declared in utils.py |
| TtsLock.TTSLockAcquireProcessor.WithPipecatMarkers | archive/july-2025/utils.py:14-19 | the archived processor shares the given lock and recognises Pipecat's marker classes |
| TtsLock.TTSLockAcquireProcessor.ProcessFrame | utils.py:53-62 | a start marker on a held lock waits, changing nothing; otherwise the frame is forwarded and a start marker leaves the lock held |
| TtsLock.TTSLockReleaseProcessor.constructor | utils.py:68-70 | the root processor shares the given lock and recognises the local end-marker class |
| TtsLock.TTSLockReleaseProcessor.WithPipecatMarkers | archive/july-2025/utils.py:33-38 | the archived processor shares the given lock and recognises Pipecat's end marker |
| TtsLock.TTSLockReleaseProcessor.ProcessFrame | utils.py:72-82 | every frame is forwarded; an end marker leaves the lock free; other frames leave it unchanged |
| LockScheduling.InitInv | bot-advanced.py:114-143 | both branches idle on a free lock satisfy the locking invariant, given well-bracketed streams |
| LockScheduling.NextKeepsInv | archive/july-2025/utils.py:21-50 | any single step of any of the four processors preserves the invariant: the lock is held exactly when one branch is between an acquire and its release, and never by both |
| LockScheduling.RunKeepsInv | archive/july-2025/utils.py:21-50 | every schedule of steps preserves the invariant |
| LockScheduling.MutualExclusionHolds | bot-advanced.py:125-143 | with Pipecat's markers, under every schedule, at most one branch is between a granted acquire and the matching release |
| LockScheduling.RunKeepsStreams | utils.py:61-62 | under every schedule and either marker choice, each branch forwards its frames exactly once, in order, with none lost or duplicated |
| LockScheduling.UnmarkedSpeechBypassesLock | strands_agent.py:57 | even with Pipecat's markers, a specialist frame without markers passes its acquire processor while the main branch holds the lock; exclusion covers marker-bracketed responses only |
| LockScheduling.LocalMarkersDoNotExclude | utils.py:10-16 | with the local marker classes, two branches that both receive a Pipecat response can both be inside it at once, and the lock stays free |
| StrandsBridge.FinalText | strands_agent.py:57 | a text is found exactly at `message["content"][0]["text"]`; otherwise the lookup fails |
| StrandsBridge.ThinkingPushes | strands_agent.py:122-131 | the drain pushes one downstream thinking frame per queued text, at the same position |
| StrandsBridge.StrandsAgentProcessor.constructor | strands_agent.py:46-47 | the end-of-turn flag starts false; the queue starts empty |
| StrandsBridge.StrandsAgentProcessor.ProcessFrame | strands_agent.py:50-60 | a request frame is consumed and answered downstream with the agent's final text, or the lookup of that text raises and nothing is pushed; every other frame is forwarded in its direction |
| StrandsBridge.StrandsAgentProcessor.StrandsCallbackHandler | strands_agent.py:96-120 | the flag becomes set on an `end_turn` stop event and is never cleared; an assistant message appends its items' texts in order unless the flag was already set |
| StrandsBridge.StrandsAgentProcessor.ProcessStrandsMessages | strands_agent.py:122-131 | the queue is emptied, and exactly one thinking frame per queued text is pushed, in queue order |
| StrandsBridge.DrainRoundTrip | strands_agent.py:126-130 | reading the messages back from the drained frames gives the queue: nothing is lost, reordered or duplicated |
| StrandsBridge.ItemTextsAllText | strands_agent.py:116-120 | when every content item carries a text, every text is queued, in content order |
| StrandsBridge.ItemTextsConcat | strands_agent.py:116-120 | the texts queued for two runs of items are those of the first run followed by those of the second |
| StrandsBridge.NothingQueuedAfterEndTurn | strands_agent.py:119-120 | after an end of turn no callback queues anything |
| StrandsBridge.QueuedBeforeFirstEndTurn | strands_agent.py:102-120 | over any sequence of callbacks, exactly the texts carried before the first end of turn are queued, in order |
| Metrics.KeepLastIsRecentSuffix | advanced-console/src/components/Metrics/index.tsx:113-117 | the kept samples are the most recent ones, at most 100 of them, in their original order |
| Metrics.KeepLastAppend | advanced-console/src/components/Metrics/index.tsx:114-117 | trimming before appending a sample gives the same history as trimming after |
| Metrics.AddSampleEffect | advanced-console/src/components/Metrics/index.tsx:102-120 | one item appends a sample to its own processor's history and trims it; every other processor and every ignored processor is untouched |
| Metrics.NoMentionNoSamples | advanced-console/src/components/Metrics/index.tsx:102-103 | an event that does not mention a processor brings it no samples |
| Metrics.ApplyProcessingKeepsOthers | advanced-console/src/components/Metrics/index.tsx:105-107 | an ignored processor, or one the event does not mention, keeps its history or its absence |
| Metrics.ApplyProcessingHistory | advanced-console/src/components/Metrics/index.tsx:99-123 | a mentioned, non-ignored processor ends with the last 100 of its old history followed by the event's samples for it, in item order |
| Metrics.HistoriesStayBounded | advanced-console/src/components/Metrics/index.tsx:113-117 | if every history starts within 100 samples, every history stays within 100 |
| Metrics.LatestSampleIsLast | advanced-console/src/components/Metrics/index.tsx:114-119 | the event's last item becomes the last sample of its processor's history |
| Metrics.MetricsPanel.constructor | advanced-console/src/components/Metrics/index.tsx:80-81 | histories start empty; token counters start undefined |
| Metrics.MetricsPanel.OnConnected | advanced-console/src/components/Metrics/index.tsx:85-92 | on connection, histories are cleared and every token counter is zero |
| Metrics.MetricsPanel.OnMetrics | advanced-console/src/components/Metrics/index.tsx:94-143 | the loop over processing items computes the new histories, which is then characterised by the lemmas above; the counters follow the token updater |
| Metrics.UpdateTokens | advanced-console/src/components/Metrics/index.tsx:126-142 | without a non-empty token array nothing changes; otherwise each counter gains `tokens[0]`'s field, or 0 when the field is missing, falsy or suppressed |
| Metrics.CountersAccumulate | advanced-console/src/components/Metrics/index.tsx:132-141 | starting from a number, each counter ends at its start plus the sum of what every event adds |
| Metrics.NaNPersists | advanced-console/src/components/Metrics/index.tsx:81 | a counter that is undefined or NaN never becomes a number again before the next reset |
| Metrics.ToInt32 | advanced-console/src/components/Metrics/index.tsx:166 | `<<` wraps its operand to a signed 32-bit value congruent to it modulo 2^32 |
| Metrics.Hue | advanced-console/src/components/Metrics/index.tsx:164-170 | the hue is in [0, 360) for every processor name |
| Metrics.HashBound | advanced-console/src/components/Metrics/index.tsx:165-167 | each character adds at most 2^31 + 65535 to the magnitude of the hash |
| Metrics.HashIsExactInDoubles | advanced-console/src/components/Metrics/index.tsx:165-168 | for names under four million code units the hash stays below 2^53, so double arithmetic computes it exactly |
| Text.LowerChar | agent.py:63 | ASCII capitals map to their lower-case letters; every other character is kept |
| Text.Lower | agent.py:63 | lower-casing keeps the length and maps each character |
| Text.IsSubstring | agent.py:63 | `needle in s` holds exactly when the needle occurs at some position of `s` |
| Text.NatToString | agent.py:101 | a count renders as a non-empty run of digits without a leading zero |
| Text.NatToStringRoundTrip | agent.py:101 | a rendered count reads back as the same count |
| Text.TrimRight | agent.py:126 | removes exactly the trailing whitespace run |
| Text.TrimLeft | agent.py:126 | removes exactly the leading whitespace run |
| Text.StripTrailingRun | agent.py:126 | stripping a visible body followed by whitespace gives the body |
| KnowledgeBase.EnhanceQuery | agent.py:60-66 | the hybrid query is the query itself or "claim ID " + query, and it is prefixed exactly when the lower-cased query contains a claim keyword |
| KnowledgeBase.ContentLimit | agent.py:114-118 | passages may run to 1000 characters exactly when the query mentions "claim" or "id", and to 200 otherwise |
| KnowledgeBase.LongLimitImpliesEnhanced | agent.py:114-118 | a query that earns the long limit was always sent with the claim prefix |
| KnowledgeBase.Truncate | agent.py:119-121 | a short passage is kept whole; a long one keeps its first `limit` characters followed by "..." |
| KnowledgeBase.BedrockKnowledgeBaseClient.constructor | agent.py:43-44 | the client is bound to one knowledge base and one retrieval service |
| KnowledgeBase.BedrockKnowledgeBaseClient.QueryKnowledgeBase | agent.py:55-135 | first a hybrid request with the enhanced query; a semantic request with the plain query happens exactly when the first returned no results; the answer is the reply to the last call's outcome, so no exception escapes |
| KnowledgeBase.ReplyTo | agent.py:97-135 | an exception becomes the client-error or generic apology, no results become the not-found message, and results become the stripped listing |
| KnowledgeBase.BedrockKnowledgeBaseClient.SearchTool | agent.py:157-161 | the agent's tool makes the client's requests on this knowledge base with 10 results each: first the hybrid request with the enhanced query, then the semantic request with the plain query exactly when the first returned no results; it answers to the last outcome |
| KnowledgeBase.FormatListing | agent.py:100-124 | the loop builds the header followed by the entries of the first five results |
| KnowledgeBase.EntriesEmptyIff | agent.py:103-124 | the listing has no entries exactly when none of the listed results has content |
| KnowledgeBase.EntriesEnding | agent.py:123-124 | entries are empty or end with a relevance line and a blank line |
| KnowledgeBase.EntryAtPosition | agent.py:103-124 | each result's entry sits right after those of the earlier results, numbered by its position even when earlier results were skipped |
| KnowledgeBase.ListingShape | agent.py:101-124 | the listing opens with the header line and ends with a blank line after a visible character |
| KnowledgeBase.AnswerIsListing | agent.py:101-126 | with results, the answer is the listing minus its final blank line, and opens with the count of all results, however many are listed |
| KnowledgeBase.ListedResultAppears | agent.py:103-124 | each of the first five results that has content appears in the listing under its position, cut to the query's limit, with its relevance line |
| KnowledgeBase.ProcessQuery | agent.py:177-184 | the agent's reply is returned as is; an agent failure becomes the fixed apology |
| KnowledgeBase.SearchKnowledgeBase | agent.py:221-256 | a missing or falsy query yields the "No query provided" result, and only then; otherwise the result carries the query, the agent's answer, the timestamp and the knowledge-base id |
| KnowledgeBase.NoQueryIgnoresAgent | agent.py:221-231 | without a query the result does not depend on the agent, so the agent is not consulted |

## Left out

- Concurrency is reduced to interleavings. Blocking on `asyncio.Lock.acquire` is a step that makes no progress. The executor thread of `run_in_executor` and the background drain task are callers of the modelled methods in any order.
- The lock has no owner check. Cancellation, and release on pipeline teardown, are not modelled.
- Interruptions (`allow_interruptions=True`, bot-advanced.py:153) are not modelled as such. They enter only through each branch's frame stream. An interruption that discards a branch's queued frames between an acquire and its release would leave that stream not well-bracketed, and `LockScheduling.InitInv` and `LockScheduling.MutualExclusionHolds` assume well-bracketed streams.
- Which frames reach each branch of the parallel pipeline is a parameter: the streams given to the scheduling model.
- LockScheduling.MutualExclusionHolds covers only speech bracketed by response markers. In bot-advanced.py:139-143 the specialist branch receives what the Strands processor pushes: a `TTSSpeakFrame`, a server message or a forwarded frame, none of them a marker. Switching to Pipecat's marker classes therefore does not serialise the specialist's speech against the main branch; LockScheduling.UnmarkedSpeechBypassesLock shows this. No corrected pipeline that serialises it is modelled.
- The frames pass through the TTS stage unchanged. Audio and the TTS services are not modelled.
- `StrandsThinkingTextFrame` (strands_agent.py:17-18) is never used, and it is not modelled.
- The stub weather tools (strands_agent.py:62-94) and `general_query` (agent.py:163-175) are not modelled. The Strands agent is a total function from the request text to its result, so the agent call itself raising inside `run_in_executor` (strands_agent.py:55) is not expressed; its outcome would match a failed lookup of the final text: the exception escapes and nothing is pushed.
- StrandsBridge.FinalText: a `text` that is not a string counts as a failed lookup; the source pushes a `TTSSpeakFrame` carrying that value unconverted, and what the TTS service then does is not modelled.
- The `in` tests of the callback handler are modelled on dictionaries only; on a list or string, Python's membership test is not modelled.
- The retrieval service (boto3) is a function parameter. `response.get("retrievalResults", [])` is modelled as the service returning the list, with none when the key is missing. Exceptions are either `ClientError` or any other.
- KnowledgeBase.RetrievalResult: the score is the text `f"{score:.2f}"` already produced. Floating-point formatting is not modelled, and neither is a result that is not a dictionary.
- The unused `source` lookup (agent.py:106-110) and all logging are not modelled.
- Lower-casing and `strip()` are modelled on ASCII: `strip()` removes blank, tab, the line breaks and the separators 0x1C-0x1F. Unicode case mapping and non-ASCII whitespace (such as U+0085 and U+00A0) are not modelled.
- KnowledgeBase.SearchKnowledgeBase: the `except` branch (agent.py:247-256) is not modelled. `process_query` turns every agent exception into an apology, so that branch runs only when the result callback or the clock raises; the callback and the clock are outside the model. The query is any JSON value, and truthiness follows Python's rules.
- KnowledgeBase.ProcessQuery: `str(response)` of the agent's result is the agent's text.
- Metrics: React batches state updates, and they are modelled as applied in the order the handlers run. The ×1000 conversion, the chart labels, the `Date` timestamps and the hsla colour string with its alpha are not modelled.
- Metrics.UpdateTokens: a token field is an integer or missing or falsy. Fractional and other non-integer values are not modelled.
- Metrics.Hue: the hash is exact integer arithmetic, which matches JavaScript doubles only below 2^53. Metrics.HashIsExactInDoubles shows this holds for names under four million code units; longer names are not modelled.
- Processor names that collide with `Object.prototype` members (such as `constructor`) are not modelled. Those would make `newMetrics[processor]` truthy from the start.
- The configuration, the environment variables, the transports and the UI components are not part of this model.

## Findings

| source | as written | input that shows it | evidently intended | confidence | as-written member | corrected member |
|---|---|---|---|---|---|---|
| utils.py:10-16 | The root lock processors, which bot-advanced.py:32 imports, test `isinstance` against marker classes that utils.py declares itself (utils.py:57, utils.py:76). No LLM service emits those classes, so the lock is never taken and the two branches can speak over each other. | Both branches receive `[LLMFullResponseStartFrame, TextFrame("hi"), LLMFullResponseEndFrame]` as emitted by Pipecat, under the schedule acquire(main), acquire(specialist). | Test against Pipecat's own marker classes, as the archived copy does (archive/july-2025/utils.py:4-8). This serialises marker-bracketed responses only; the specialist's unmarked speech still bypasses the lock (see Left out). | not executed | LockScheduling.LocalMarkersDoNotExclude | LockScheduling.MutualExclusionHolds |
