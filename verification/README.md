# A verified model of the agent engine

The package `ai` drives language models through tool calls. This project models the part of it that
moves messages and tool calls around, and proves what that part is for. Providers, payloads and user
code are abstract: content is an opaque string, and what a tool, a provider or a handler does is a
function given from outside.

| part of the engine | modules |
|---|---|
| messages, tool calls and results | `History`, `ToolTrace` (with `Options`, `Pieces`) |
| repairing a history | `RepairSpec`, `RepairPlacement`, `RepairPasses`, `ResumeMatching` |
| accumulating a provider stream | `StreamEvents`, `AccumulateSpec`, `Accumulator`, `AccumulateProofs`, `Interleaving`, `FinalResults`, `StreamContents` |
| replaying a response as a stream | `Decimals`, `Replay` |
| continuing suspended responses | `Continuation`, `MergedResponses`, `ContinuationView`, `OverwrittenView` |
| running tool calls | `ExecutorSpec`, `ExecutorProofs`, `FinalContents`, `Executor` |
| deferred tool calls | `DeferredSpec`, `DeferredHandlers` |
| concurrent protocols | `EventDispatch`, `AgentRun`, `PendingQueue` (with `EnqueuedMessages`) |
| preparing a request | `AvailabilitySpec`, `PrepareSpec`, `PrepareProofs`, `PreparePlaces`, `SearchPlaces`, `PrepareConserves`, `PrepareMessages`, `ResultOrder`, `ToolCallIds` |
| middleware order | `OrderingSpec`, `CapabilityOrdering` |
| cache marks | `CacheMarks` |
| partial JSON | `PartialJson`, `JsonScanning` |

Code that works step by step is modelled step by step: loops over slices and maps, classes with fields,
arrays filled in place. Each such method is proved equal to a function of its inputs or its old state,
or given a complete relation between them, and what the code promises is then proved about that function.
The concurrent protocols are transition systems: a thread's section under a lock, or one channel
operation, is one step, and theorems hold for every sequence of steps.

## What is proved

* **Repair.** Matching in the code uses mutable queues of tracked calls. `RepairSpec` describes it without
  them: a call with key `k` is answered by the results with key `k` that arrive before the next response
  that calls `k` again, and the last calls of a response are the ones left dangling. From this follow that
  repair makes every history valid, changes exactly the invalid ones, and loses nothing but orphans. The
  resume matcher, which pairs in another order, then finds nothing unresolved. `RepairPlacement` says where
  everything goes without the functions that put it there: message by message for each pass, down to the place
  of an interrupted result behind the last result of its request and to every field of a merged one.
* **Streams.** The consumer of the lifecycle events is an automaton that accepts only lawful sequences:
  parts started in order 0, 1, 2 and so on, each ended once before the next starts, the final result
  announced at most once and where it must be. Folding the events keeps it in step with the accumulator after
  every provider event, and after a refusal it still has a lawful prefix. Text and thinking parts agree
  except for their ID, which deltas do not carry; the view is exact if and only if no event changes an ID.
  The response equals the view if and only if no part is dropped as empty. `StreamContents` says for any stream,
  keyed or not, which part each event belongs to and what the events of a part make of it; `FinalResults` says when
  the consumer is told that the result has begun.
* **Continuations.** The loops end by themselves whatever the provider does. Their contracts give each failure
  its cause, so that giving up early or for another reason does not meet them, and say which suspended job
  is cancelled or kept. Both loops can leave a job running, and each exactly in one case. The loop in a run does when
  its last request exhausted the fallbacks and what they cost takes the run over its limits: it returns before it
  looks for a job (`JobLostExactly`, with an input in `ExhaustedFallbackLosesJob`). The direct loop does when a failed
  request brings a response of its own that is not suspended (`JobHiddenExactly`).
* **Merged segments.** `MergedResponses` describes the response by the segments alone: its parts are those since the
  last segment that is marked as replacing, shares the ID kept so far, or names another model; its usage is counted
  from the last unmarked one that shares the ID; of details and metadata the last entry for each key counts.
* **Replaced responses.** A segment that replaces the ones before it takes no part back from a consumer that keeps
  parts by index. The view then displays the merged response exactly when the segment's events were not shifted, it
  dropped no empty part, and no earlier response had more parts; polls of a background job are never shifted.
* **Executor.** For every order in which the calls of a batch start and end: barriers are kept, the limit is kept,
  a failure lets only its own batch finish, and which calls run is a fixed plan. Keeping the limit needs the
  output tool to share its name with no function that counts: `ExpectedIsEnough` shows the count that the
  limit check uses is enough exactly then.
* **End strategies.** In all three the output considered is that of the first output call that yields one; what can
  overrule it is a wish to be called again. Graceful and exhaustive differ exactly when such a wish comes only from an
  output call that graceful skips, which needs an output tool that shares a function tool's name
  (`ClashSeparatesStrategies`). Early agrees with graceful exactly when no such wish is heard while some call yields
  output. With names kept apart, graceful and exhaustive always agree, and only function tools are heard. Whoever wins,
  each call ends with the part its own result makes (`FinalContents`): a function's content is never changed, a second
  output never becomes final, and a call that was not run says so.
* **Dispatch.** Installing the emitter can strand events exactly when an immediate event's thread has already
  read that there is none (`ai/loop.go:2847` reads it outside the lock); the window is reachable.
* **AgentRun.** `Close` returns for every stream, and takes a waiting `Next` along. Without it, `Next` can get
  stuck exactly when the stream goes on after a failure, or when a capability that wraps the stream yields one over a
  run that succeeds and then fails to close; calling `Close` then frees it.
* **Preparation.** Each pass is shown to keep, for every key, the whole trace of calls and results, so pairs
  survive reordering, speech conversion and renaming. In the prepared history a synthesized search has an ID that
  nothing else uses: its trace is one call and one answer, and the answer is the first part of the request right
  after the call. No other calls or results are added. Everything else comes through as well (`PrepareConserves`):
  prompts and response parts in order, speech as the text that was said with the line that says where it was cut off,
  scoped prompts at the end of the last request, a search where tools were made available.

## Model

| member | source | states |
|---|---|---|
| `RepairSpec.RepairIsValid` | ai/history_repair.go:12-36 | From any history repair makes one that providers accept: every call answered, no orphaned result, no neighbours left to merge, no empty request but the last. |
| `RepairSpec.RepairFixpoint` | ai/history_repair.go:12-36 | A history is changed exactly when it is not valid, and repairing twice is repairing once. |
| `RepairSpec.RepairConserves` | ai/history_repair.go:12-36 | Response parts and prompts stay in order; the results kept are those with an earlier call; one result is added per dangling call and none else. |
| `RepairSpec.FillAnswersAll` | ai/loop.go:642-722 | After dangling calls are answered, no call is dangling. |
| `RepairSpec.MissingIsShortfall` | ai/loop.go:642-722 | The interrupted results added for a response make up, per key, exactly what the results before the next call of that key fall short of. |
| `RepairSpec.MergeAnswered` | ai/loop.go:566-633 | Merging neighbours keeps every call answered, although joined responses are matched as one. |
| `RepairSpec.MergeLeavesNoMergeable` | ai/loop.go:566-633 | One pass of merging leaves no two neighbours to merge. |
| `RepairSpec.DropLeavesNoOrphans` | ai/loop.go:536-564 | After dropping, every result has an earlier call with its key. |
| `RepairSpec.RepairResolvesAll` | ai/loop.go:1785-1824 | After repair the resume matcher, last call first and without shadowing, has no call left for any key. |
| `RepairSpec.AnsweredLeavesNoStack` | ai/loop.go:1785-1824 | A history answered under the repair matcher leaves the resume matcher's stacks empty, although the two pair differently. |
| `RepairPlacement.DropPlaces` | ai/loop.go:536-564 | Dropping leaves every response; a request keeps, in order, exactly its prompts and the results whose key an earlier response calls, and goes when nothing is left of it unless it is the last message. |
| `RepairPlacement.FillPlaces` | ai/loop.go:642-722 | Each message becomes its own block in order; what a response leaves unanswered is one interrupted result for each of its last calls per key, in order, and stands behind the last result of the next request, or in a request of its own before the next response, or in the closing one. |
| `RepairPlacement.MergePlaces` | ai/loop.go:566-633 | The history splits into runs of which one message each is made: results first, then prompts, in order; the instructions all agree on; the last time, run and conversation given; for each key of the metadata the last entry; and the last state. |
| `RepairPlacement.RepairKeepsLead` | ai/history_repair.go:12-36 | When no request of a history has a result behind a prompt, none has after repair. |
| `RepairPlacement.NeighboursDiffer` | ai/loop.go:566-633 | After repair two requests stand next to each other only with different instructions, and two responses only when one of them says where it comes from. |
| `RepairPlacement.ClosingFollowsResponse` | ai/history_repair.go:38-49 | The closing request takes time, run and conversation of the last response and is marked interrupted. |
| `RepairPasses.DropOrphanedToolResults` | ai/loop.go:536-564 | The pass with its growing set of seen keys is the recursive description of dropping. |
| `RepairPasses.MatchResults` | ai/loop.go:642-690 | Matching with one queue of active calls per key marks a call exactly as its rank among equal keys and the results in its window say. |
| `RepairPasses.RepairDanglingToolCalls` | ai/loop.go:642-722 | Queues, shortfall map and insertion together yield the history filled call by call, with the results no later message could take. |
| `RepairPasses.MergeConsecutiveMessages` | ai/loop.go:566-633 | The loop that grows its last merged message computes the merge of the history; a merged request has its results first. |
| `RepairPasses.RepairMessages` | ai/history_repair.go:12-36 | The composed passes return the repaired history, valid in every case and unchanged exactly when the input was valid. |
| `ResumeMatching.UnresolvedToolCalls` | ai/loop.go:1785-1824 | Per key, exactly the calls left on that key's stack; all of them in the order the history makes them; none when every call is answered. |
| `ResumeMatching.LastCallsFirst` | ai/loop.go:1785-1824 | Results resolve the calls made last: those of the response before them from its last one, and only then earlier ones. |
| `AccumulateProofs.UpdateMatchesDelta` | ai/stream_events.go:55-241 | Applying the emitted delta to the consumer's part gives the accumulator's updated part, up to the ID of text and thinking, for every kind of part. |
| `AccumulateProofs.ConsumerMirrorsAccumulator` | ai/stream_accumulate.go:69-427 | For any provider events and any point of refusal: the events sent are lawful and fold to the accumulator's parts; after a refusal, to all of them or all but the last. |
| `AccumulateProofs.ExactStep` | ai/stream_accumulate.go:191-427 | An event keeps the view exact if and only if it gives no text or thinking part a new ID. |
| `AccumulateProofs.ExactRun` | ai/stream_accumulate.go:69-427 | The view is exact after every event of a run if and only if no event of it changes an ID. |
| `AccumulateProofs.ViewIsResponse` | ai/stream_accumulate.go:164-178 | When a run ends without a snapshot, the consumer's view is the response's parts if and only if no part was dropped as empty. |
| `AccumulateProofs.NeverCalledAfterRefusal` | ai/stream_accumulate.go:85-91 | A consumer that refuses an event was sent exactly that one more; one that has not refused was sent no more than it accepts. |
| `FinalResults.FinalResultAnnounced` | ai/stream_accumulate.go:128-163 | In every run the first accepted start of free text where text may end the run, of speech with words there, or of a call of the output tool is directly followed by an announcement with that call's name and ID, or with neither; nothing else is announced. |
| `FinalResults.AnnouncedIffStarted` | ai/stream_accumulate.go:128-163 | A result is announced if and only if such a start was accepted. |
| `StreamContents.PartsSayWhatArrived` | ai/stream_accumulate.go:92-397 | For any stream, keyed or not: an event belongs to the part of its key, or without one continues the part before it if it fits, or begins a part; each part holds its events' texts and arguments joined, the last ID, provider, signature and details given, the last whole transcript with what was added since, and the last file. |
| `StreamContents.PartsAreNamed` | ai/stream_accumulate.go:119-163 | In every run whatever is sent about a part names it by its key. |
| `StreamContents.CutOffResponse` | ai/stream_accumulate.go:164-190 | A stream that fails, is refused or runs dry hands back the parts that carry something, with the fields given last, marked incomplete unless they have a state; nothing exactly when there is neither. |
| `StreamContents.FinishedResponse` | ai/stream_accumulate.go:398-427 | A finished stream hands back the snapshot's parts, or those that carry something, with the finishing fields, also when the consumer refuses the last event, which tells of those fields; what follows is not read. |
| `StreamContents.RejectedResponse` | ai/stream_accumulate.go:69-427 | Once the provider has broken its stream nothing is handed back. |
| `Accumulator.Accumulator.NewPart` | ai/stream_accumulate.go:92-100 | A part is appended, becomes current, and is found by its key unless the key is empty. |
| `Accumulator.Accumulator.PartForDelta` | ai/stream_accumulate.go:101-118 | Delta routing: by key, or to the current part of the same kind when the key is empty; a known key of another kind is refused and changes nothing. |
| `Accumulator.Accumulator.EndLastPart` | ai/stream_accumulate.go:119-127 | The part last started, if any, is ended with the kind of what follows. |
| `Accumulator.Accumulator.StartPart` | ai/stream_accumulate.go:128-163 | Ends the part before, starts the new one with what it holds, and announces the final result once, at the first part that counts as output. |
| `Accumulator.Accumulator.OnText` | ai/stream_accumulate.go:209-233 | A text event leaves the state and status its step describes, events sent included. |
| `Accumulator.Accumulator.OnSpeech` | ai/stream_accumulate.go:234-261 | The same for speech. |
| `Accumulator.Accumulator.OnThinking` | ai/stream_accumulate.go:262-290 | The same for thinking. |
| `Accumulator.Accumulator.OnWhole` | ai/stream_accumulate.go:291-397 | Compactions, starts of calls and native returns: a key already in use is refused. |
| `Accumulator.Accumulator.OnCallDelta` | ai/stream_accumulate.go:329-361 | A call delta reaches its call, or opens one, or is refused. |
| `Accumulator.Accumulator.OnFile` | ai/stream_accumulate.go:362-384 | A file event opens or replaces a file part. |
| `Accumulator.Accumulator.OnFinish` | ai/stream_accumulate.go:398-427 | Ends the last part and completes the response, from the snapshot if there is one. |
| `Accumulator.Accumulator.MaterializeParts` | ai/stream_accumulate.go:164-178 | The parts worth keeping, in order. |
| `Accumulator.Accumulator.PartialResponse` | ai/stream_accumulate.go:179-190 | What a cut-off run hands back. |
| `Accumulator.Accumulator.Accumulate` | ai/stream_accumulate.go:69-427 | The loop's status, response and events sent are those of the run that the theorems above are about. |
| `Interleaving.PartsAreProjections` | ai/stream_accumulate.go:92-118 | With keyed events: accepted exactly when each key's own events are, and then each part is built from its own events alone, in order of first appearance. |
| `Interleaving.InterleavingIrrelevant` | ai/stream_accumulate.go:92-118 | Two interleavings of the same keyed streams build the same parts, or both are refused. |
| `Interleaving.RunIsCoreRun` | ai/stream_accumulate.go:69-427 | The accumulator follows the keyed part-building whatever metadata arrives in between. |
| `Interleaving.ResponseIndependentOfInterleaving` | ai/stream_accumulate.go:92-118 | The completed response depends on the interleaving only through the keys' first appearance. |
| `Replay.ReplayRestoresResponse` | ai/stream_run.go:404-479 | Accumulating the replay of any response restores its parts and carried fields, and its consumer sees exactly those parts; only a refusing consumer stops it. |
| `Replay.ReplayWithoutSnapshot` | ai/stream_run.go:404-479 | Without the closing snapshot the parts come back if and only if none of them is empty. |
| `Decimals.DecimalInverts` | ai/stream_run.go:404-479 | Decimal keys, given to replayed parts by position, are never empty and never coincide. |
| `Continuation.FoldedAttempts` | ai/continuation.go:77-98 | In every merge mode the merged failed attempts are the seed's and then each segment's, in order. |
| `Continuation.BilledAttemptsAreTheSegments` | ai/continuation.go:55-63 | So exactly the attempts made since the resumed response are billed. |
| `Continuation.BilledUsageIsTheSegments` | ai/continuation.go:55-98 | The usage billed is the segments' total, unless polls of one job replaced it. |
| `Continuation.MergeUnmarks` | ai/continuation.go:77-98 | The replacing marker never outlives its merge, nor does an empty namespace. |
| `MergedResponses.FoldedIsMadeOf` | ai/continuation.go:39-98 | After any segments: the parts since the last segment that is marked, shares the non-empty ID kept so far or names another model than the one before; the last ID given since; the usage since the last unmarked segment that shares the ID; all attempts; for details and metadata the last entry per key; else the last segment's fields. |
| `MergedResponses.LastModeIs` | ai/continuation.go:39-50 | Which way of merging a segment calls for: marked first, then a shared ID, then another model, else accumulation. |
| `MergedResponses.CountedAs` | ai/continuation.go:197-216 | Asking again counts as a poll exactly after an unmarked segment that shares the ID, and otherwise as a continuation once there is a response. |
| `MergedResponses.RunningIs` | ai/loop.go:2381-2406 | What a failed request leaves running: the response with the part that came with the failure if that part is suspended, else the response asked about if that is. |
| `MergedResponses.ReceivedAt` | ai/loop.go:2415-2417 | A segment received is the provider's answer, complete unless it says otherwise. |
| `Continuation.AskedAgain` | ai/continuation.go:197-216 | Every request but a fresh first one is counted as a continuation or as a poll, never both. |
| `Continuation.ContinuationLimit` | ai/continuation.go:197-216 | Polls and continuations are counted apart, each against its own limit. |
| `Continuation.DoModelRequest` | ai/loop.go:2314-2444 | At most 1 + 10 + 1000 requests; each made after a wait, within both limits and the usage limits; the answer is the merge of all segments, first to be complete; each failure has its cause; what still runs is cancelled, or kept when detached, and neither when exhausted fallbacks took the run over its limits. |
| `Continuation.JobLostExactly` | ai/loop.go:2372-2406 | Whatever job a failure of the loop finds running, asked about before or begun by the failed request, is neither cancelled nor kept if and only if that request exhausted the fallbacks and the usage is then over the limits. |
| `Continuation.ExhaustedFallbackLosesJob` | ai/loop.go:2372-2381 | A resumed job, a rejected fallback and a limit for which every end of the loop leaves the job running. |
| `Continuation.RequestModelDirect` | ai/direct.go:271-395 | The same without usage limits; on failure it returns what it has, and cancels that if it is suspended. |
| `Continuation.FailedPartHidesJob` | ai/direct.go:361-373 | There is a running job that the direct loop leaves running when its poll fails. |
| `Continuation.JobHiddenExactly` | ai/direct.go:361-373 | In the direct loop that happens exactly when the failed request brought a response that is not suspended; behind such a response the loop in a run still finds the job, if it looks. |
| `ContinuationView.ShiftedFold` | ai/continuation.go:178-195 | Shifted events fold behind the parts already there and leave those alone. |
| `ContinuationView.ViewIsMergedResponse` | ai/loop.go:2347-2436 | Over any number of accumulated segments, with or without a resumed seed, the consumer's view is the merged parts if and only if no segment dropped an empty part. |
| `ContinuationView.SegmentResponseIsTheAccumulators` | ai/stream_accumulate.go:398-427 | The segments merged are the responses the accumulator completes. |
| `OverwrittenView.OverlaidFold` | ai/stream_run.go:105-133 | Shifted events lay their parts over what a consumer that keeps parts by index had, and leave the rest. |
| `OverwrittenView.ReplacedView` | ai/loop.go:2347-2436 | After a segment merged by either replacing mode, over any earlier view: the view displays the merged parts if and only if no empty part was dropped, the events were not shifted (or there are no parts), and the view had no further parts. |
| `OverwrittenView.PollOffset` | ai/loop.go:2347-2436 | Polls of a background job, fresh or resumed, are never shifted. |
| `OverwrittenView.PolledView` | ai/loop.go:2347-2436 | After any number of polls the view displays the merged response if and only if the last one dropped no empty part and no earlier response had more parts. |
| `EventDispatch.StepKeepsInv` | ai/loop.go:2803-2901 | Every atomic step of every thread keeps the protocol's invariant: one drainer, order, and who is responsible for the queue. |
| `EventDispatch.DeliversInOrderOneAtATime` | ai/loop.go:2803-2901 | In every run one thread at most is with the consumer, and events arrive in the order they were queued; unless the consumer refused one, they are the first ones, each once, and the rest are in hand or queued. |
| `EventDispatch.QuietMeansDelivered` | ai/loop.go:2803-2901 | When all threads are done, with no refusal and nothing stranded, each event was delivered and heard once. |
| `EventDispatch.ThreadsFinish` | ai/loop.go:2803-2901 | Every thread inside an emit can go on, and each step that goes on lowers a measure: without new events all threads are done after finitely many steps, under any schedule. |
| `EventDispatch.StrandsExactlyInTheWindow` | ai/loop.go:2826-2868 | Installing the emitter can be followed by stranded events if and only if an immediate event's thread has read that there is none. |
| `EventDispatch.TheWindowIsReachable` | ai/loop.go:2826-2868 | A run reaches that window. |
| `AgentRun.ReturnsAPrefixOfTheStream` | ai/agent_run.go:81-164 | Over any interleaving, what `Next` returned is a prefix of the worker's events in order, with one failure at most. |
| `AgentRun.WorkerWaitsForNext` | ai/agent_run.go:81-164 | The worker takes event k + 1 only after `Next` was called again, unless the run was closed. |
| `AgentRun.NeverStuck` | ai/agent_run.go:137-164 | While someone waits, the given step of the worker or of a handover is possible, provided that `Close` was called or that the worker only winds down once its failure was taken. |
| `AgentRun.OnlyNextGetsStuck` | ai/agent_run.go:137-164 | In every run the stuck states are exactly those in which the worker sends on, an item or the closing error, to a `Next` that has its failure, without a `Close`; no `Close` waits in them, and calling it frees both. |
| `AgentRun.StuckExactlyAfterAFailure` | ai/agent_run.go:81-131 | A state in which `Next` and the worker block one another is reachable if and only if the stream goes on after a failure, or has one under a wrapper while closing fails. |
| `AgentRun.CallsReturn` | ai/agent_run.go:271-320 | Every step of the run lowers a measure, and one is possible while someone waits, once `Close` was called or if neither an item nor the closing error follows a failure: `Close` returns for every stream, `Next` too under it. |
| `ExecutorProofs.FirstOutputIsCandidate` | ai/loop.go:3353-3376 | In every strategy the first output found is that of the first output call that yields one, whatever the tools are called. |
| `ExecutorProofs.StrategiesAgree` | ai/loop.go:3126-3222 | For any two of the strategies, the exact condition on the calls under which they return the same output, whatever the tools are called. |
| `ExecutorProofs.StrategiesAgreeApart` | ai/loop.go:3126-3222 | When no output tool shares a function tool's name, graceful and exhaustive return the same output; early returns it too if and only if no function would ask for a retry while an output exists. |
| `ExecutorProofs.ClashSeparatesStrategies` | ai/loop.go:3168-3222 | Two calls of an output tool that shares a function tool's name, for which graceful returns an output and exhaustive none. |
| `ExecutorProofs.PartOrRequest` | ai/loop.go:3353-3436 | Each call ends with a part or with a pending request, with its ID, never both. |
| `ExecutorProofs.EveryCallEndsOnce` | ai/loop.go:3353-3436 | In all strategies each call's ID occurs once over parts and requests, both in emission order, and with a final output nothing stays pending. |
| `ExecutorProofs.ExpectedIsEnough` | ai/loop.go:3092-3124 | The calls expected to count bound those that can count, whatever the tools do, if and only if no output call is an available function that counts too. |
| `FinalContents.EachCallEndsWithItsResult` | ai/loop.go:3353-3436 | In every strategy, whoever wins: a call that ran ends with exactly the part its own result makes, content included; the first output keeps its content if and only if it won and else says that retries go first; later outputs say they are not final; calls not run say they were skipped; a deferred call is skipped if output won and pending otherwise. |
| `FinalContents.WinnerIsFirst` | ai/loop.go:3361-3388 | There is a final output exactly when an output call yields one and, unless ending early, no call that ran asks to be called again; it is the first one's. |
| `FinalContents.CollectedInOrder` | ai/loop.go:3353-3436 | The parts and requests collected are those the calls end with, in emission order; an error exactly when a call left pending has no ID. |
| `FinalContents.CountsExactly` | ai/loop.go:3092-3124 | What counts towards the limit is the success of an available tool that runs here, told to the consumer or not, and of an output tool that goes by such a name. |
| `FinalContents.ExpectedExactly` | ai/loop.go:3092-3124 | A function is expected to count exactly when some possible result of it counts. |
| `Executor.AddGroup` | ai/loop.go:3249-3279 | A batch that runs after what has ended keeps the order of barriers, in any order of its own starts and ends. |
| `Executor.Executor.EndCall` | ai/loop.go:3281-3316 | An ended call's outcome is recorded, and counted if it is a success that counts, also when the consumer then refuses to hear of it. |
| `Executor.Executor.RunTogether` | ai/loop.go:3249-3279 | For every interleaving of starts and ends, the batch's outcomes are recorded, the others kept, and the counter is right. |
| `Executor.Executor.ExecuteIndexBatch` | ai/loop.go:3249-3279 | All calls of the batch run, and it reports a failure exactly when one of them failed. |
| `Executor.Executor.ExecuteSelected` | ai/loop.go:3224-3247 | The calls run in order between barriers; a failure stops after its own batch. |
| `Executor.Executor.RunsAlone` | ai/loop.go:3224-3247 | Between start and end of a call that must run alone (with sequential tools any, a sequential one always, an output call unless exhaustive) no other call starts or ends. |
| `Executor.Executor.PlanIs` | ai/loop.go:3126-3222 | Which calls a strategy runs: all when exhaustive; else output calls until one yields output, and functions always when graceful or if none yields when early. |
| `Executor.Executor.CheckToolCallLimit` | ai/loop.go:3092-3124 | Refuses exactly when the counter and the calls expected to count exceed the limit. |
| `Executor.Executor.ExecuteCallsEarly` | ai/loop.go:3126-3166 | Output calls one by one until one yields output, functions only if none did; refused exactly when those functions do not fit the limit then. |
| `Executor.Executor.ExecuteCallsGraceful` | ai/loop.go:3168-3205 | All functions run, output calls up to the first that yields output; refused, with nothing run, exactly when over the limit. |
| `Executor.Executor.ExecuteCallsExhaustive` | ai/loop.go:3207-3222 | Everything runs; refused, with nothing run, exactly when over the limit. |
| `Executor.Executor.CollectCallOutcomes` | ai/loop.go:3353-3436 | The parts settled in place and gathered are each call's final part, the requests its final request, the output the winner; a request without an ID is an error. |
| `Executor.Executor.HasDuplicateId` | ai/loop.go:3059-3070 | Finds a repeated call ID exactly when there is one. |
| `Executor.Executor.ExecuteCalls` | ai/loop.go:3053-3090 | Which of the four answers is given, exactly: duplicate, over the limit, failed, or all outcomes of the strategy collected; the limit is never passed unless an output tool is a function the limit counts. |
| `Executor.Executor.ExecuteCallsWithCommittedOutput` | ai/stream_commit.go:133-199 | With output already streamed: the calls each strategy still runs and the answers of the others, under the same barriers and, with the same exception, the same limit. |
| `Executor.Executor.CommittedEnds` | ai/stream_commit.go:133-199 | Each call ends as its own result asks, the streamed one as processed, others not run as skipped; a second output is never final, and an output call that fails says so. |
| `Executor.Executor.CommittedGraceful` | ai/stream_commit.go:147-177 | Functions run in batches between barriers; output calls are answered and not run. |
| `Executor.Executor.CommittedExhaustive` | ai/stream_commit.go:180-198 | Everything but the streamed output call runs. |
| `DeferredSpec.StepConserves` | ai/loop.go:1620-1695 | One handler moves each ID it settles from the batch to the parts, and loses or repeats none. |
| `DeferredSpec.HandlersConserve` | ai/loop.go:1620-1658 | Over any list of handlers, occurrences of an ID in parts and remaining batch add up to those in the original batch. |
| `DeferredSpec.EachCallIsAnsweredOrRemains` | ai/loop.go:1620-1658 | A call pending once ends with one part if some handler settles it, and pending once otherwise, also when it defers again after approval. |
| `DeferredHandlers.ApplyDeferredToolResults` | ai/loop.go:1511-1618 | Results are refused exactly when they do not fit the pending calls; they apply exactly when nothing stops the calls they answer; then the parts, what defers again, and the counter are as described. |
| `DeferredHandlers.FittingExactly` | ai/loop.go:1511-1599 | Results fit when pending IDs are distinct and not empty, every ID named is that of one pending call, none is answered in both ways, and each answer fits its call. |
| `DeferredHandlers.FitsExactly` | ai/loop.go:1549-1599 | An answer fits a call whose available tool may defer in that way, by itself or through a hook, unless the call is stored as deferred in the other way; a call without an answer fits unless all must have one. |
| `DeferredHandlers.DefersAgain` | ai/loop.go:1549-1695 | A call that defers while being answered waits among those of its new kind, and the next handler's answer of that kind fits, the other never. |
| `DeferredHandlers.BatchInOrder` | ai/loop.go:1660-1695 | The next batch holds what was not answered, in order, and then what deferred again, approvals before external calls. |
| `DeferredHandlers.PartsInOrder` | ai/loop.go:1599-1618 | A handler's parts are those its answers make, with what each call says, in pending order. |
| `DeferredHandlers.HandlersInOrder` | ai/loop.go:1620-1658 | The parts of later handlers come behind those of earlier ones. |
| `DeferredHandlers.RemainingRequests` | ai/loop.go:1672-1695 | The requests not answered, in order. |
| `DeferredHandlers.CollectAgain` | ai/loop.go:1660-1670 | What defers again, by kind, in pending order, with the new kind stored. |
| `DeferredHandlers.HandleDeferredToolCalls` | ai/loop.go:1620-1658 | Succeeds exactly when every handler's results apply to what the ones before left; the outcome is the one the conservation lemmas speak of. |
| `PendingQueue.PendingMessageQueue.Add` | ai/enqueue.go:133-141 | Accepted, at the end, exactly while the queue is open; the run's enqueue step on this queue. |
| `PendingQueue.PendingMessageQueue.Close` | ai/enqueue.go:143-147 | Closing keeps what is pending; the run's close step on this queue. |
| `PendingQueue.PendingMessageQueue.Drain` | ai/enqueue.go:160-174 | Takes the groups of one priority in order and keeps the others in order; the run's drain step on this queue. |
| `PendingQueue.PendingMessageQueue.DrainForRedirect` | ai/enqueue.go:176-192 | Takes all, urgent ones first, and closes exactly when there is nothing; the run's redirect step on this queue, which ends the run exactly then. |
| `PendingQueue.NextKeepsInv` | ai/enqueue.go:133-216 | Every step of the run and of enqueuing threads keeps the invariant that accepted groups are delivered, in flight or pending, in order per priority. |
| `PendingQueue.EndedRunDeliveredEverything` | ai/loop.go:2630-2709 | When a run has ended with a result, every accepted group was delivered once, first in first out per priority, and no later step accepts another. |
| `PendingQueue.DrainsTakeWhatIsDue` | ai/enqueue.go:160-204 | A redirect takes all that is pending, urgent before idle; the drain before a request takes the urgent ones only. |
| `EnqueuedMessages.BuildKeepsItems` | ai/enqueue.go:89-131 | The built messages hold the items in order, and nothing that could be joined is left apart. |
| `EnqueuedMessages.BuildEnqueuedMessages` | ai/enqueue.go:89-131 | The buffers and flushes build those messages, or fail exactly when they would not end in a request. |
| `ToolTrace.AnsweredByTraces` | ai/loop.go:642-722 | Whether every call of a history is answered depends on the traces of its keys alone. |
| `AvailabilitySpec.ExpandAllKeeps` | ai/speech.go:108-235 | Traces of keys in use are untouched; each new key's trace is one search call and its answer, at the start of the next request. |
| `AvailabilitySpec.SplitSearches` | ai/speech.go:108-235 | Within one request split at its deltas, each fresh key gets one search and the answer that follows it. |
| `PrepareSpec.ConvertKeepsTraces` | ai/speech.go:257-348 | Turning speech into text and leaving out silent messages changes no key's trace. |
| `PrepareSpec.ScopeKeepsTraces` | ai/speech.go:59-106 | Neither does scoping request prompts. |
| `PreparePlaces.SpeechPlaces` | ai/speech.go:257-348 | Part by part: audio where the model takes it, else what was said; the assistant's words, followed on a line of their own by the time of interruption, or that there was one if it is the last speech of an interrupted response; silence and empty messages go; the wrong speaker is the only error; no speech changes nothing. |
| `PreparePlaces.PromptPlaces` | ai/speech.go:59-106 | Message by message: answered scoped prompts go, those of requests with no request after a later response stand together at the end of the last request, everything else keeps its place. |
| `SearchPlaces.SearchPlaced` | ai/speech.go:108-235 | Message by message: results at the head of a request first, then all parts in order, with a search for the allowed tools and directly behind it the answer in place of each delta; the delta's own ID unless it is in use, else a hashed one that is not. |
| `PrepareProofs.HistoryRenamed` | ai/tool_call_ids.go:59-119 | An injective change of IDs changes nothing else in any trace. |
| `PrepareProofs.PreparationKeepsAnswers` | ai/speech.go:23-54 | If every call of the history is answered, every call of the prepared request is. |
| `PrepareProofs.PreparationKeepsPairs` | ai/speech.go:23-54 | Each key's trace in the prepared history is its trace before under an injective renaming, so calls keep their results; each synthesized search's trace is its call and its answer, which is the first part of the next request. |
| `PrepareProofs.PreparationAddsNothingElse` | ai/speech.go:23-54 | Every key with calls or results in the prepared history comes from one of the history or from a synthesized search. |
| `PrepareProofs.KeysInUseAreRenamed` | ai/tool_call_ids.go:59-119 | Every ID that the history's calls and results use, and every synthesized one, has a replacement. |
| `PrepareConserves.PreparationKeepsContents` | ai/speech.go:23-54 | From the history with speech as text and prompts in place, all request parts other than results and replaced deltas and all response parts come through in order, up to the change of IDs; nothing is added to the responses but the searches' calls. |
| `PrepareConserves.OnlyIdsChange` | ai/tool_call_ids.go:59-119 | The change of IDs changes the IDs of calls and results, each the same way, and nothing else. |
| `PrepareMessages.ConvertSpeechMessages` | ai/speech.go:257-348 | The pass computes the conversion, or fails where it fails. |
| `PrepareMessages.ScopeRequestSystemPrompts` | ai/speech.go:59-106 | The pass with its last-seen bookkeeping computes the scoping. |
| `PrepareMessages.SynthesizeToolAvailability` | ai/speech.go:108-235 | Buffers, counters and used IDs compute the expansion. |
| `PrepareMessages.PrepareModelMessages` | ai/speech.go:23-54 | All passes in order compute the prepared history the theorems are about. |
| `ToolCallIds.FitAllOk` | ai/tool_call_ids.go:59-119 | A finished table replaces every ID, injectively, by one of the required length and alphabet, and there are no more IDs than such strings; too many are reported only when there are more; the other failure means that all candidates tried for some ID were taken. |
| `ToolCallIds.ReplacementsOnlyGrow` | ai/tool_call_ids.go:59-119 | A replacement given for a prefix of the history is the one given for the whole. |
| `ToolCallIds.KeptExactly` | ai/tool_call_ids.go:59-125 | An ID is kept if and only if it fits and was not given before to another. |
| `ToolCallIds.IdFitter.Fit` | ai/tool_call_ids.go:59-119 | One ID's replacement, assigned on first sight, keeps the table good. |
| `ToolCallIds.FitToolCallIds` | ai/tool_call_ids.go:59-119 | Calls and results of the whole history are renamed through one table. |
| `ResultOrder.OrderedKeeps` | ai/tool_call_ids.go:14-44 | Reordering keeps all parts, keeps results of one ID in their order, and moves nothing but answering results, within their own places. |
| `ResultOrder.ByCallInOrder` | ai/tool_call_ids.go:14-44 | Afterwards the answering results stand in the order of the calls. |
| `ResultOrder.AnswersFollowCalls` | ai/tool_call_ids.go:14-44 | Answers to the response stand in the order in which it first calls their IDs, in the places where answers stood; everything else stays. |
| `ResultOrder.OrderKeepsTraces` | ai/tool_call_ids.go:14-44 | Every call keeps its results. |
| `ResultOrder.OrderParts` | ai/tool_call_ids.go:14-44 | Collecting, sorting and writing back compute that order. |
| `ResultOrder.OrderToolResultsByCall` | ai/tool_call_ids.go:14-44 | Every request directly after a response is reordered in place, nothing else. |
| `OrderingSpec.GreedyValid` | ai/capability_ordering.go:129-155 | Taking the first free entry each time respects every constraint. |
| `OrderingSpec.GreedyLeast` | ai/capability_ordering.go:129-155 | No order that respects the constraints comes before the one found. |
| `OrderingSpec.GreedyKeepsIdentity` | ai/capability_ordering.go:129-155 | Entries already in order stay as they are. |
| `OrderingSpec.StuckMeansCycle` | ai/capability_ordering.go:129-152 | When no entry is free, the constraints have a cycle. |
| `OrderingSpec.CycleMeansNoOrder` | ai/capability_ordering.go:129-152 | With a cycle there is no order. |
| `CapabilityOrdering.MarkEdges` | ai/capability_ordering.go:87-119 | One entry's tier, wraps and wrapped-by declarations become exactly its edges. |
| `CapabilityOrdering.BuildEdges` | ai/capability_ordering.go:87-119 | The matrix is the constraint relation. |
| `CapabilityOrdering.ValidMeansInTiers` | ai/capability_ordering.go:87-119 | An order respects the constraints if and only if outermost entries come before the others, innermost after them, and each wrapper before what it wraps, whichever of the two declares it. |
| `CapabilityOrdering.CountEdges` | ai/capability_ordering.go:121-128 | Each count is the number of entries that must come before. |
| `CapabilityOrdering.SortGraph` | ai/capability_ordering.go:129-152 | Succeeds if and only if there is no cycle, with the greedy order. |
| `CapabilityOrdering.SortCapabilityEntries` | ai/capability_ordering.go:64-155 | Each error exactly when it is due; otherwise the least permutation that respects every constraint. |
| `CacheMarks.IndexedRest` | ai/cache_health.go:42-52 | Removing the front of the list and its key leaves index and list in one-to-one correspondence. |
| `CacheMarks.IndexedMoved` | ai/cache_health.go:149-160 | So does moving an entry to the back. |
| `CacheMarks.IndexedMore` | ai/cache_health.go:149-160 | So does adding an entry whose conversation is not indexed. |
| `CacheMarks.Registry.Prune` | ai/cache_health.go:42-52 | Drops from the front exactly while there are more than 4096 or the front is older than 24 hours; what is left is bounded. |
| `CacheMarks.Registry.Bind` | ai/cache_health.go:32-40 | Returns the marks stored for the conversation after pruning, or new empty ones that are not listed. |
| `CacheMarks.Registry.Store` | ai/cache_health.go:149-160 | The stored marks become last, listed before or evicted before; the others keep their order, less those dropped; nothing is kept for no conversation. |
| `CacheMarks.Registry.Join` | ai/cache_health.go:62-69 | Marks that lost their place join the stored ones, which win, and both share one table from then on. |
| `CacheMarks.Registry.Observe` | ai/cache_health.go:54-147 | Joining, setting one mark and storing; without a mark to set the list stays as it is. |
| `PartialJson.CloseIsShortestCompletion` | ai/partial_json.go:39-89 | A text can be closed if and only if something completes it, and no completion is shorter. |
| `PartialJson.CloseIsFixpoint` | ai/partial_json.go:39-89 | What was closed rescans as complete, and closing it again changes nothing. |
| `JsonScanning.StringIsRead` | ai/partial_json.go:39-61 | Inside a string only a quote after an even number of backslashes ends it. |
| `JsonScanning.StringEnds` | ai/partial_json.go:39-61 | A string with its closing quote changes nothing around it, whatever brackets and escapes it holds. |
| `JsonScanning.BracketsMatch` | ai/partial_json.go:62-78 | A bracket around a balanced text is closed by its own kind; the other kind is an error. |
| `JsonScanning.CloseNeedsOpen` | ai/partial_json.go:62-78 | After a balanced text a closing bracket is an error. |
| `JsonScanning.CutInsideString` | ai/partial_json.go:79-89 | A text cut inside a string gets its dangling backslash escaped, the string ended and the brackets closed. |
| `JsonScanning.TrimmedIs` | ai/partial_json.go:44 | Trimming removes white space at both ends, all of it and nothing else. |
| `PartialJson.CloseJsonPrefix` | ai/partial_json.go:39-89 | The byte loop with stack and string flags computes that closing. |
| `PartialJson.DecodePartialJson` | ai/partial_json.go:10-37 | The longest prefix that closes into something acceptable is decoded, and nothing only when there is none. |

## Left out

- `RepairMessages` with `PreserveLastResponse`: calls answered only after the last response get a second answer there, so repair is no fixpoint.
- Payloads, JSON encoding, schema validation and cloning: contents are opaque strings, clones are the values themselves.
- Providers, hooks, middleware chains, telemetry spans and templates: what they do is given from outside.
- Aliasing between messages: messages are values, and a tracked call is found by its index instead of by reference.
- The library's stable sort: modelled by its result, the parts in the order of the calls.
- `AccumulateSpec.Response`: the numbers in usage are one integer, and response details are string maps.
- `ContinuationView.ViewIsMergedResponse`: segments accumulated over a background flag, whose events overwrite the segment before, and a view with an authoritative finish snapshot; replacing segments are in `OverwrittenView`.
- `Continuation.BilledUsageIsTheSegments`: says nothing across polls of one provider job, where the code replaces the usage it reports.
- `Continuation.DoModelRequest`: the run's usage after the loop, to which the attempts of an exhausted fallback have been added.
- `EventDispatch.QuietMeansDelivered`: that the scheduler lets threads run, and that listeners and the consumer return, is not modelled; `ThreadsFinish` says what follows when they do.
- `AgentRun.CallsReturn`: streams are finite, and the run's own result fields are not modelled.
- `Executor.Executor.ExecuteCalls`: extra parts of tools, availability deltas, the events emitted for calls and results, and the usage limits other than the tool call limit are not modelled, except that a success may be refused when it is told; which of several failures is returned is left open, and so are the parts returned with an error. A call's own behaviour does not depend on the order in which calls run.
- `Executor.Executor.CollectCallOutcomes`: extra parts of tools, metadata of deferred calls and the events emitted are not modelled.
- `Executor.Executor.ExecuteCallsWithCommittedOutput`: what becomes of deferred calls, which have no part there.
- `DeferredHandlers.ApplyDeferredToolResults`: metadata is checked for its IDs only; approved arguments are not overridden; an approval that is neither granted nor denied, which the code refuses, does not occur; nor, on resumption, does a pending call whose tool shares its name with the output tool, which never defers a call itself; which of several mismatches is reported is left open.
- `DeferredHandlers.CollectAgain`: requests are one list with kinds, in emission order, instead of one list per kind.
- `PendingQueue.EndedRunDeliveredEverything`: saving pending messages with a suspended run and restoring them.
- `ToolCallIds.FitToolCallIds`: the code probes hashes until one is free; the model gives up after `patience` probes, for a hash that never yields one. The hash itself is any function.
- `AvailabilitySpec.ExpandAllKeeps`: the search for an unused ID is bounded in the same way.
- `CapabilityOrdering.SortCapabilityEntries`: matching a reference to entries goes by reflection in the code and is a given relation here; the passes that add edges are joined in one.
- `CacheMarks.Registry.Observe`: whether a response sets a mark, and the health it reports, are given from outside.
- `PartialJson.DecodePartialJson`: what decodes is any partial function.
- Fallback ordering, concurrency limits, sanitization and trimming.
