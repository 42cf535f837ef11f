# Verified model of the conversation engine

A Dafny model of the part of the repository that keeps conversations in order: the transcript
pipeline, the agent loop that drives it, and the concurrent and stateful structures around it. The
model, the tools, the summariser, the clock, the file system and the scheduler are arbitrary, so
every theorem below holds for all of their behaviours. `dafny verify dfyconfig.toml` checks the project.

## What is proved

**Every request of every run is well formed.** `Messages.WellFormed` says that each assistant message
is directly followed by exactly one tool result for each of its distinct non-empty call IDs, and that
tool results occur nowhere else. `AgentLoop.Agent.HandleInner` proves that in every run, for any model
replies, tool outcomes, retries and compressions, every request is the built system message followed
by a well-formed transcript. `AgentTrace` says what a run is: which attempts it makes, for which
session, what it sends for summarisation, how it goes on and how it ends; `HandleInner` is proved to
produce only such runs, and `AgentTheorems` proves what holds of all of them. It rests on an exact
account of repair (`RepairTheorems`), of truncation (`TruncationTheorems`) and of compression
(`Compression`).

Repair walks a Go map, so the order of the errors it injects is not determined. It is modelled as a
relation, the loop takes the entries in an arbitrary order, and the theorems cover all of them.

The request is well formed under the condition `PlainStart`: the first message of the history that is
no tool result does not both carry the name `context_compression` and make calls. The condition is
needed (`TruncationCanBreakTranscript`), the exact guard is `TruncationWellFormedIff`, an empty session
meets it, and a run keeps it, so that it holds forever for a session that starts empty.

**Locks.** `SessionLock` is the step relation of the session locker: registration, helper goroutine,
cancellation, clean-up goroutine, unlock and decrement of any number of calls in any order. Mutual
exclusion, exact reference counts, an empty map when all is quiet, and termination hold for every run.

**Caches, stores and counters.** The sequential code is proved against a specification of what it is
for (the last distinct keys used; a fresh query; the tenant's own messages; the longest suffix that
fits; the largest surplus of sessions), and the races that the code admits are modelled as runs of
steps (`EmbeddingRaces`, `QueryCacheRaces`, `QuotaRaces`).

**Where the code does less than one might expect.** Five expectations are false of the code. For each
there are inputs that show it and a theorem that says exactly when it holds.

- Truncation of a well-formed history can break it: `TruncationCanBreakTranscript`; exactly when:
  `TruncationWellFormedIff`.
- A query can be answered from a stale cache after a batch that fails part-way:
  `StaleAfterPartialBatch`; exactly when a batch is safe: `BatchIsSafeIff`, and for a given provider
  `BatchKeepsCoherentIff`.
- A query can be answered from a stale cache when a write comes between asking the provider and
  filling the cache: `HitCanBeStale`; exactly when a hit is fresh: `HitIsFreshIff`; a discipline under
  which all hits are: `DisciplinedHitsAreFresh`.
- Deleting, reaping or saving a session can remove or overwrite another tenant's file of the same
  name: `AnothersFileIsDeleted`, `AnothersFileIsReaped`, `AnothersFileIsOverwritten`; exactly when not:
  `DeleteWithTenant`, `ReapStaleSessions`, `Save`.
- Retention can lose a line and report success, because errors of writing the temporary file are
  ignored: `LineIsLost`; exactly when the file is right: `WrittenIff`, `EnforceRetention`.

## Files

| file | about |
|---|---|
| Options, Sequences, Messages, Recency | shared notions: options, sequences, messages and turns, lists in order of last use |
| TranscriptRepair, RepairTheorems | repair of broken tool chains |
| HistoryTruncation, TruncationTheorems, GroupBorders | grouping and truncation |
| InjectionOrder, ContextBuilding | what the order of injection can change; the request for a history |
| Compression | session messages, summarisation, compression followed by repair |
| Streaming | the accumulator of streamed deltas |
| AgentTrace, AgentLoop, AgentTheorems, AgentSessions | what a run is; context guard, retries, tools and the loop; what holds of every run, and of its sessions |
| SessionLock | the session locker |
| EmbeddingCache, EmbeddingRaces | the embedding cache, sequential and interleaved |
| QueryCache, QueryCacheRaces | the query cache, sequential and interleaved |
| SessionStore | sessions stamped with tenants, in memory and on disk |
| AuditRetention | retention of the audit log |
| TenantQuota, QuotaRaces | quota counters, sequential and interleaved |

## Model

| member | source | states |
|---|---|---|
| TranscriptRepair.RepairTranscript | internal/usecase/transcript_repair.go:16-68 | whatever order the pending map is walked in, the output relates to the input turn by turn: same heads, first answers kept in order, one error for each call left unanswered, leading and orphaned results gone |
| TranscriptRepair.InjectMissingResults | internal/usecase/transcript_repair.go:72-86 | appends one error result for each pending call, each exactly once, in an arbitrary order, and changes nothing before |
| TranscriptRepair.TrackKeepsLast | internal/usecase/transcript_repair.go:33-37 | when several calls of a message share an ID, the one tracked is the last of them; empty IDs are never tracked |
| Messages.AnswersMeansOnceEach | internal/usecase/transcript_repair.go:10-15 | a run answers a set of IDs exactly when its first IDs are pairwise distinct and are that set |
| RepairTheorems.RepairIsWellFormed | internal/usecase/transcript_repair.go:16-68 | every repair of every input is well formed |
| RepairTheorems.RepairConserves | internal/usecase/transcript_repair.go:24-67 | non-tool messages stay exactly and in order; the surviving messages are a subsequence of input and output; the length grows by the number of distinct unanswered calls |
| RepairTheorems.SurvivorsAreKept | internal/usecase/transcript_repair.go:26-53 | what the turns keep is exactly the messages that, read one by one, are no tool result or are the first answer to a call of their turn |
| RepairTheorems.InjectedErrors | internal/usecase/transcript_repair.go:72-86 | every message after the kept ones of a turn is a tool message with the error text, the name of the last call with that ID in the turn's head, that ID and name, and nothing else |
| RepairTheorems.RepairIsIdentityIffWellFormed | internal/usecase/transcript_repair.go:24-67 | repair returns its input if and only if that is well formed |
| RepairTheorems.RepairIsIdempotent | internal/usecase/transcript_repair.go:72-86 | repairing again, in a possibly different order, changes nothing |
| HistoryTruncation.GroupMessages | internal/usecase/context_builder.go:145-166 | the two nested loops compute the grouping defined message by message |
| HistoryTruncation.FlattenGroups | internal/usecase/context_builder.go:145-166 | flattening the groups of any history gives the history back |
| HistoryTruncation.KeepFromEnd | internal/usecase/context_builder.go:108-118 | keeps the longest group-aligned suffix within the budget, or the last group alone if it exceeds it |
| HistoryTruncation.Reverse | internal/usecase/context_builder.go:120-123 | the swapping loop yields the groups in the opposite order |
| HistoryTruncation.TruncateHistory | internal/usecase/context_builder.go:99-139 | returns the history if it fits, else the longest group-aligned suffix, with a lost leading summary put back |
| TruncationTheorems.TruncationIsDetermined | internal/usecase/context_builder.go:99-139 | the specification of truncation allows exactly one result |
| TruncationTheorems.TruncationFitsBudget | internal/usecase/context_builder.go:99-139 | a history that fits is unchanged; otherwise the length is at most the larger of the budget and the last group, plus one |
| TruncationTheorems.TruncationIsSuffix | internal/usecase/context_builder.go:108-129 | what is kept is a suffix of the history that is not empty |
| GroupBorders.StartsAreBorders | internal/usecase/context_builder.go:145-166 | groups start exactly at the messages that are not a tool result directly after an assistant message with calls or after another such result |
| GroupBorders.TruncationReturnsLongestEnd | internal/usecase/context_builder.go:99-139 | what truncation returns, said of the messages: the history if it fits, else its longest end that fits and is not cut inside a group (the shortest such end if none fits), with the first message in front exactly if that carries the summary name and the end does not start with one |
| GroupBorders.LongestEndIsUnique | internal/usecase/context_builder.go:108-118 | that end is unique |
| TruncationTheorems.TruncationKeepsSummary | internal/usecase/context_builder.go:131-136 | a leading compression summary is still leading |
| TruncationTheorems.WellFormedGroups | internal/usecase/context_builder.go:141-166 | the groups of a well-formed history are exactly its turns, so that no cut splits a call from its results |
| TruncationTheorems.TruncationWellFormedIff | internal/usecase/context_builder.go:99-139 | truncating a well-formed history gives a well-formed one exactly unless it does not fit and the branch that re-adds the summary re-adds a message that makes calls |
| TruncationTheorems.TruncationPreservesWellFormed | internal/usecase/context_builder.go:99-139 | truncation preserves well-formedness if the first message, when named as a summary, makes no calls |
| TruncationTheorems.TruncationCanBreakTranscript | internal/usecase/context_builder.go:131-136 | a well-formed history whose truncation is not well formed |
| ContextBuilding.ContextBuilder.Build | internal/usecase/context_builder.go:41-73 | the system message with memory and skills comes first; the rest is a repair and truncation of the history, well formed exactly unless truncation re-adds as the summary a message that makes calls, and so for every history with a plain start |
| ContextBuilding.BuildIsWellFormed | internal/usecase/context_builder.go:63-65 | repair followed by truncation is well formed exactly unless truncation re-adds a message that makes calls, and so for every history with a plain start |
| ContextBuilding.BuildIsWellFormedIff | internal/usecase/context_builder.go:63-65 | the exact condition does not depend on the order of injection |
| ContextBuilding.SystemMessageIsPrompt | internal/usecase/context_builder.go:49-60 | the system message starts with the prompt, and is the prompt alone if there is no memory and no skill |
| ContextBuilding.SystemMessageShowsMemory | internal/usecase/context_builder.go:49-52 | every memory line is in the system message, below its heading after the prompt |
| ContextBuilding.SystemMessageShowsSkill | internal/usecase/context_builder.go:53-55 | every skill line is in the system message, below its heading |
| InjectionOrder.RepairsDifferInOrder | internal/usecase/transcript_repair.go:72-86 | two repairs of one history have the same heads and, turn by turn, the same results with the same multiplicities |
| InjectionOrder.TailsDifferInOrder | internal/usecase/context_builder.go:63-65 | truncated repairs of one history are cut at the same place and differ at most in the order of the results within each turn; they are well formed both or neither |
| Compression.Session.CompressMessages | internal/usecase/compressor.go:126-146 | a summary replaces all but the last messages; a short session is unchanged |
| Compression.Compressor.ForceCompress | internal/usecase/compressor.go:66-120 | the model is asked exactly when a message other than a system message would be dropped, with the text of all that would be dropped; if it answers with some text, a summary of that text (the answer without its blank ends) followed by the last messages unchanged is the new session, and otherwise the session is unchanged; it never grows |
| Compression.Compressor.Compress | internal/usecase/compressor.go:57-62 | as ForceCompress, and nothing at or below the threshold |
| Compression.TextShowsMessage | internal/usecase/compressor.go:80-88 | the text sent for summarisation shows, in place, the role and content of every message other than system messages |
| Compression.TextBlankIff | internal/usecase/compressor.go:88-91 | that text is blank exactly when all messages are system messages |
| Compression.TrimSpaceSplits | internal/usecase/compressor.go:108-111 | trimming removes only blank ends, and leaves no blank end |
| Compression.CompressionStoresReply | internal/usecase/compressor.go:108-113 | the summary left in the session is what the summarising model answered |
| Compression.CompressThenRepair | internal/usecase/compressor.go:126-146 | compressing a well-formed transcript at any cut and repairing it in any order gives the summary and the kept suffix without exactly its leading orphaned results |
| Compression.CompressionKeepsPlainStart | internal/usecase/compressor.go:126-146 | compression keeps the condition under which requests are well formed |
| Streaming.StreamAccumulator.AddDelta | internal/usecase/agent.go:491-521 | merges a delta position by position, up to the bound, growing the slots as needed |
| Streaming.AccumulatedState | internal/usecase/agent.go:491-532 | after any deltas: the joined contents; in each slot the last non-empty ID and name and the joined arguments of that position; as many slots as the longest delta, at most 50; the last usage reported |
| Streaming.TwoDeltasAsOne | internal/usecase/agent.go:491-521 | two consecutive deltas act as their merge |
| Streaming.CuttingIsInvisible | internal/usecase/agent.go:486-521 | cutting the text and arguments of any delta in two, anywhere in a stream, does not change what is built |
| AgentLoop.ExecuteTools | internal/usecase/agent.go:334-345 | for every completion order of the goroutines, the j-th result is that of the j-th call |
| AgentTrace.ToolMessage | internal/usecase/agent.go:67-158 | however a call ends, its result is a tool message with the ID and name of the call and with what the tool gave |
| AgentLoop.ContextGuard.Check | internal/usecase/context_guard.go:56-94 | the verdict, the new session and the text sent for summarisation in every case; success exactly when the session ends up within the limit; failure means that there is no compressor, that its attempt failed, or that it still left the session over the limit |
| AgentLoop.Agent.CallModel | internal/usecase/agent.go:391-421 | the reply, or the message built from all deltas |
| AgentLoop.Agent.CompressAndRebuild | internal/usecase/agent.go:439-447 | the summarising model is asked with the text of all that would be dropped, the session is compressed, and the request is rebuilt for the session as it then is |
| AgentLoop.Agent.CallLLMWithRetry | internal/usecase/agent.go:370-469 | the attempts form an iteration: each sends a request built for the session as it then is; all but the last failed retryably; after an overflow the session is the compressed one, after other failures session and request are the same; the last attempt succeeded, is not to be retried, was cancelled while waiting, or is the last one allowed; the session left and the texts sent for summarisation are given in each case |
| AgentLoop.Agent.Act | internal/usecase/agent.go:334-348 | the session gains the results of the calls in the order of the calls |
| AgentLoop.Agent.Checkpoint | internal/usecase/agent.go:230-235 | the verdict, the session left and the text sent for summarisation; passing means within the limit |
| AgentLoop.Agent.Iterate | internal/usecase/agent.go:256-356 | an iteration extends the run by its attempts and either keeps the invariant of the loop or ends the run as a run may end |
| AgentLoop.Agent.HandleInner | internal/usecase/agent.go:199-365 | for every environment: the iterations form a run (each starts from the session the guard let pass, makes its attempts, appends the reply and one result per call in order); the result, the session left and all texts sent for summarisation are those of the run; from a plain start all requests are well formed and the session stays plain |
| AgentTheorems.EveryRequestIsWellFormed | internal/usecase/agent.go:256-356 | by induction over iterations and attempts: in every run from a plain start every request is the system message followed by a well-formed transcript |
| AgentTheorems.RunStaysPlain | internal/usecase/agent.go:199-365 | a run leaves its session with a plain start, so that the next run has one |
| AgentSessions.ReceivedIs | internal/usecase/agent.go:391-421 | the message of an attempt: the reply, or when streaming an assistant message with the joined contents and the columns of the deltas |
| AgentSessions.BlockIs | internal/usecase/agent.go:306-348 | what an iteration appends, message by message: the reply, then for each of its calls in order a tool message with the call's ID and name and with what the tool gave |
| AgentSessions.IterationAppends | internal/usecase/agent.go:306-348 | an answered iteration appends its block to the session of its last attempt |
| AgentSessions.SessionsStayWellFormed | internal/usecase/agent.go:256-356 | without compression, from a well-formed start and with replies whose calls have distinct non-empty IDs, every session is well formed, so repair changes nothing and no result is lost from any request |
| AgentSessions.OnlyCutOffResultsAreLost | internal/usecase/agent.go:256-356 | with compression the requests lack only results that a compression has cut off from their call |
| AgentSessions.EveryMessageHasOrigin | internal/usecase/agent.go:199-365 | every message left in the session was there at the start, was appended by an iteration, or passes on what the summarising model answered on some occasion |
| AgentSessions.OverflowCompresses | internal/usecase/agent.go:422-447 | between two attempts the session changes exactly by a compression after an overflow; otherwise session and request are the same |
| AgentSessions.CheckpointCompresses | internal/usecase/context_guard.go:56-94 | at a checkpoint the session changes exactly by a compression of a session over the limit |
| AgentSessions.AnswerCompresses | internal/usecase/agent.go:317-332 | an answer leaves the session with the reply, compressed exactly if it is over the threshold |
| AgentSessions.FailureLeaves | internal/usecase/agent.go:422-468 | a failure leaves the session of the last attempt, compressed if that overflowed retryably |
| AgentTheorems.StartsUncancelled | internal/usecase/agent.go:256-259 | when streaming, no iteration starts once the run is cancelled |
| AgentTheorems.CancelledBetweenAttempts | internal/usecase/agent.go:449-463 | a run is cancelled before an iteration, or while waiting to retry a failure that is retryable, not the last allowed and not answered by a compression |
| AgentLoop.Agent.SettingsAre | internal/usecase/agent.go:27-59 | the settings of a run are those of the agent, its builder, compressor and guard |
| AgentTheorems.FirstAttemptsAreGuarded | internal/usecase/agent.go:230-235 | corollary of the run HandleInner is proved to be: the first attempt of every iteration is made for a session within the guard's limit |
| AgentTheorems.EarlierAttemptsFail | internal/usecase/agent.go:370-469 | corollary of the run HandleInner is proved to be: every attempt but the last of its iteration failed retryably and was not cancelled while waiting; every iteration but the last brought a reply that makes calls |
| AgentTheorems.AttemptsAreBounded | internal/usecase/agent.go:370-390 | at least one and at most 3 attempts in each iteration (exactly 1 without a classifier), at most maxIterations iterations, so at most 3 times maxIterations attempts |
| AgentTheorems.AnswersExactlyWithoutCalls | internal/usecase/agent.go:317-332 | corollary of the run HandleInner is proved to be: a run answers exactly when its last reply makes no calls |
| AgentTheorems.GivesUpAfterAllIterations | internal/usecase/agent.go:358-364 | max-iterations is returned after exactly maxIterations replies, all of them making calls |
| AgentTheorems.FailsWithoutRetry | internal/usecase/agent.go:422-468 | corollary of the run HandleInner is proved to be: a model error is that of the last attempt, which is not retryable or the last one allowed |
| AgentTheorems.GuardFailsAfterCompression | internal/usecase/context_guard.go:56-94 | corollary of the run HandleInner is proved to be: a guard failure is returned only with a session over the limit, and only after any compressor of the guard has failed or left it so |
| AgentTheorems.WithoutCompression | internal/usecase/agent.go:224-356 | without compression every attempt is made for the old session, the user's message and the blocks so far, and that is what the run leaves |
| AgentTheorems.RunsAreDetermined | internal/usecase/agent.go:199-365 | two runs in the same environment make the same attempts for the same sessions, end with the same result and leave the same session; their requests differ at most in the order of the results within each turn |
| AgentTheorems.NothingGoesUnread | internal/usecase/compressor.go:70-120 | whatever non-system message is in the session at some point of a run (at the start, before or after a checkpoint, at an attempt, after an iteration) is in the session the run leaves, or its line is in a text the run sent for summarisation |
| AgentLoop.Agent.FinalCompression | internal/usecase/agent.go:319-323 | a session over the threshold is compressed after the answer, with the text sent for summarisation; another one is untouched |
| SessionLock.MutualExclusion | internal/usecase/session_lock.go:32-79 | in every run at most one caller holds the lock of a session, also across deletion and recreation of its entry |
| SessionLock.ReferencesExact | internal/usecase/session_lock.go:34-41 | in every reachable state the reference count is the number of unfinished calls on the mutex, each of them on the mutex the map holds for its session; the map has an entry for exactly the sessions in use, none when all calls are finished |
| SessionLock.InvNext | internal/usecase/session_lock.go:32-79 | every step of every call keeps the invariant |
| SessionLock.DeletedIsUnused | internal/usecase/session_lock.go:55-60 | an entry is deleted only when no other unfinished call refers to it |
| SessionLock.SomeStepEnabled | internal/usecase/session_lock.go:43-78 | while a call is unfinished, some step other than a new call or a cancellation is enabled |
| SessionLock.StepUsesOne | internal/usecase/session_lock.go:43-78 | every step other than a new call decreases the measure by one |
| SessionLock.RunsAreBounded | internal/usecase/session_lock.go:43-78 | a run without new calls is exactly as long as the measure it uses up |
| SessionLock.EndsDrained | internal/usecase/session_lock.go:83-87 | a run that cannot go on has finished all calls and emptied the map |
| SessionLock.WaitingCanBeCancelled | internal/usecase/session_lock.go:63-78 | in every reachable state a waiting caller can be cancelled, whatever its helper does; mutexes, owners, counts, map and other calls are as before |
| SessionLock.EntrySurvives | internal/usecase/session_lock.go:67-78 | after a cancellation the call stays on its mutex and the map keeps that mutex for the session until the call's own decrement |
| SessionLock.AnyoneCanRegister | internal/usecase/session_lock.go:34-41 | a new call can always register for any session, on the mutex of the map with one more reference or on a new one |
| SessionLock.HolderCanUnlock | internal/usecase/session_lock.go:46-54 | a holder owns its mutex and can always release it; a free mutex can be taken by any helper waiting for it |
| Recency.ByLastUseMeans | internal/adapter/embedding/cached.go:18-27 | the reference list holds the elements of a history, each once, in the order of their last occurrence |
| Recency.UseKeepsLastN | internal/adapter/embedding/cached.go:97-113 | moving to the back and evicting the front is exactly keeping the last distinct elements |
| Recency.LargerHoldsMore | internal/adapter/embedding/cached.go:97-113 | two bounded lists that serve the same requests, with failed fetches: the smaller one is at all times a subsequence of the larger one |
| EmbeddingCache.CachedEmbedder.Embed | internal/adapter/embedding/cached.go:45-80 | batches pass through; a hit answers what the provider last answered for the key; a miss answers and stores what the provider gives; errors and empty answers change nothing; every entry holds the last answer for its key; the list stays the last maxSize distinct keys used, in bijection with the map |
| EmbeddingCache.CachedEmbedder.Promote | internal/adapter/embedding/cached.go:58-63 | a hit moves its entry to the back and nothing else |
| EmbeddingCache.CachedEmbedder.Put | internal/adapter/embedding/cached.go:97-113 | the answer for the key changes and no other; every entry again holds the last answer for its key; the list is used as a bounded recency list |
| EmbeddingCache.LargerCacheHoldsMore | internal/adapter/embedding/cached.go:45-113 | of two caches fed the same calls and provider outcomes the larger one holds every key of the smaller one, also when errors are seen by the smaller one only |
| EmbeddingRaces.AlwaysConsistent | internal/adapter/embedding/cached.go:52-79 | in every interleaving map and list are in bijection and within capacity |
| EmbeddingRaces.ReturnsInnerEmbedding | internal/adapter/embedding/cached.go:52-79 | in every interleaving whatever is returned is the provider's embedding of the text |
| EmbeddingRaces.EvictedStaysOut | internal/adapter/embedding/cached.go:58-63 | an evicted element is never put back into the list |
| EmbeddingRaces.CallersNeverStuck | internal/adapter/embedding/cached.go:45-80 | every caller can always take its next step |
| EmbeddingRaces.CachedIsHit | internal/adapter/embedding/cached.go:50-63 | anyone can look up at any time; a cached key is a hit on the element that map and list hold for it, any other a miss, and nothing else changes |
| EmbeddingRaces.PutIsCached | internal/adapter/embedding/cached.go:74-79 | a caller that has embedded a text leaves its key cached with that vector, most recently used |
| QueryCache.KeyTextInjective | internal/adapter/memory/cached.go:120-123 | different queries or limits give different key texts, also when queries contain colons |
| QueryCache.CachedMemory.Query | internal/adapter/memory/cached.go:64-84 | the answer and the new cache; on a coherent cache the answer is that of a fresh inner query, whatever the clock says |
| QueryCache.CachedMemory.Write | internal/adapter/memory/cached.go:37-43 | a successful store, deletion or curation drops the whole cache, a failed one leaves it |
| QueryCache.CachedMemory.StoreBatch | internal/adapter/memory/cached.go:47-62 | how far a batch gets and what becomes of the cache; it stays coherent if the provider stores batches or all items or none are stored |
| QueryCache.StoresUpToRefusal | internal/adapter/memory/cached.go:55-61 | the items before the first refusal are stored one after the other, the refused one and those after it are not |
| QueryCache.HitIsFresh | internal/adapter/memory/cached.go:64-84 | on a coherent cache a hit equals a fresh inner query |
| QueryCache.StaysCoherentIff | internal/adapter/memory/cached.go:102-102 | a change of the provider that does not drop the cache, such as a synchronisation, keeps every coherent cache coherent exactly when it changes no answer |
| QueryCache.BatchIsSafeIff | internal/adapter/memory/cached.go:55-61 | a batch stored one by one, refused after k items, keeps every coherent cache coherent for every provider exactly if k is 0 or all |
| QueryCache.AllOrNothingIsSafe | internal/adapter/memory/cached.go:55-61 | the safe direction for providers of any state |
| QueryCache.PartWayIsUnsafe | internal/adapter/memory/cached.go:55-61 | for every other k a provider whose failures change nothing and that leaves a stale cache |
| QueryCache.BatchKeepsCoherentIff | internal/adapter/memory/cached.go:55-61 | for a given provider the batch keeps every coherent cache coherent exactly if all items are stored or the stored ones change no answer |
| QueryCache.StaleAfterPartialBatch | internal/adapter/memory/cached.go:55-61 | for every batch that fails part-way a later query that is stale |
| QueryCacheRaces.HitsAreBacked | internal/adapter/memory/cached.go:64-84 | in every interleaving a hit is an inner answer for that key, filled in by the caller that asked for it and neither dropped nor replaced between fill and hit; without collisions it is an answer to that very question |
| QueryCacheRaces.HitIsFreshIff | internal/adapter/memory/cached.go:64-84 | in a given interleaving a hit equals a fresh query for every provider exactly if the provider does not change between the step that asked for the answer and the hit |
| QueryCacheRaces.DisciplinedHitsAreFresh | internal/adapter/memory/cached.go:64-111 | if answers are filled in at the version that gave them, nobody looks up between a write and its drop, and no batch fails part-way, every hit equals a fresh query |
| QueryCacheRaces.HitCanBeStale | internal/adapter/memory/cached.go:64-111 | a run in which a hit is out of date although the write has returned |
| SessionStore.SessionManager.GetOrCreateWithTenant | internal/usecase/session.go:130-161 | which session is returned in each case; with a tenant it is stamped with it and holds only messages added through sessions handed to it |
| SessionStore.SessionManager.LoadOrCreate | internal/usecase/session.go:144-157 | what is loaded, what is created, and its stamp |
| SessionStore.SessionManager.LoadFromDisk | internal/usecase/session.go:309-333 | the stored session if the ID is safe and there is one; messages and tenant are as stored; one of the old format gets its ID as external key and a new ID, any other is unchanged |
| SessionStore.ValidMeansSafe | internal/usecase/session.go:93-119 | a valid ID is exactly a non-empty one without separators, null bytes and ".." |
| SessionStore.SessionManager.GetWithTenant | internal/usecase/session.go:199-211 | a session exactly if the tenant may use it, with the isolation guarantee |
| SessionStore.SessionManager.ListSessionsForTenant | internal/usecase/session.go:254-265 | exactly the sessions stamped with the tenant |
| SessionStore.SessionManager.AddThrough | internal/usecase/session.go:47-55 | adding a message keeps the tenants isolated |
| SessionStore.SessionManager.CompressThrough | internal/usecase/compressor.go:126-146 | compressing keeps the tenants isolated |
| SessionStore.SessionManager.SaveRead | internal/usecase/session.go:181-183 | what is saved is stamped and holds only that tenant's messages |
| SessionStore.SessionManager.SaveWrite | internal/usecase/session.go:189-190 | writing the file keeps the tenants isolated, whatever happened since the read |
| SessionStore.SessionManager.Save | internal/usecase/session.go:164-191 | what is written; the files of other tenants are spared exactly if the file of that name is none or one the session's owner may use |
| SessionStore.AnothersFileIsOverwritten | internal/usecase/session.go:189-190 | saving overwrites another tenant's file of that name |
| SessionStore.SessionManager.DeleteWithTenant | internal/usecase/session.go:219-245 | the outcome, memory and disk in each case; the files of other tenants are spared exactly if the file of that name is none or one the tenant may use |
| SessionStore.SessionManager.DeleteFromMemory | internal/usecase/session.go:219-238 | the part under the lock: only a session the tenant may use is deleted from memory |
| SessionStore.AnothersFileIsDeleted | internal/usecase/session.go:240-244 | a tenant that uses an ID under which another tenant's session is stored, and deletes it, removes the other tenant's file |
| SessionStore.SessionManager.RemoveFile | internal/usecase/session.go:240-244 | removing the file keeps the tenants isolated |
| SessionStore.SessionManager.ReapFromMemory | internal/usecase/session.go:289-294 | reaping keeps the tenants isolated |
| SessionStore.SessionManager.ReapStaleSessions | internal/usecase/session.go:269-307 | what is left in memory and on disk; only files of the owners of the stale sessions go exactly if each owner may use the file of that name |
| SessionStore.AnothersFileIsReaped | internal/usecase/session.go:296-305 | reaping a session removes another tenant's file of that name |
| AuditRetention.FileAuditLogger.EnforceRetention | internal/security/audit.go:116-230 | when the file is replaced, when retention fails, and what is reported: removed plus kept are the non-empty lines; the new file holds the longest fitting suffix of the surviving lines exactly if no write of the temporary file falls short |
| AuditRetention.Filter | internal/security/audit.go:158-192 | keeps exactly the surviving lines in order and counts the others; fails exactly on an overlong line |
| AuditRetention.Trim | internal/security/audit.go:194-201 | dropping from the front yields the longest suffix within the size |
| AuditRetention.WriteLines | internal/security/audit.go:211-215 | the file that results from what each write writes |
| AuditRetention.WrittenIff | internal/security/audit.go:211-215 | it is the text of the lines exactly if every write is complete |
| AuditRetention.LineIsLost | internal/security/audit.go:211-215 | a write that fails replaces its line by an empty one, and no error is returned |
| AuditRetention.LinesOfText | internal/security/audit.go:156-163 | a completely written file reads back as the lines written |
| AuditRetention.LinesOfUnterminated | internal/security/audit.go:156-163 | a last line without a newline is a line too |
| AuditRetention.SurvivorsSurvive | internal/security/audit.go:162-185 | the lines kept by the age filter are a subsequence of the file, none empty or too old |
| AuditRetention.SurvivesIff | internal/security/audit.go:147-181 | a line survives exactly if it is not empty and, with a maximal age, has no readable time stamp or is not older than that |
| AuditRetention.SurvivorsAreCounted | internal/security/audit.go:162-185 | as many lines are kept as survive, by position |
| AuditRetention.NonEmptyCounts | internal/security/audit.go:162-185 | the count of non-empty lines, by position |
| AuditRetention.KeptSurvive | internal/security/audit.go:194-201 | all lines kept come from the file, survive the filter and together fit the size |
| AuditRetention.RetentionIsIdempotent | internal/security/audit.go:162-215 | a second pass with the same cutoff over the file written removes nothing and writes the same file |
| TenantQuota.TenantQuotaTracker.GetCounters | internal/usecase/tenant_quota.go:53-72 | the counters are the replay of the tenant's uses since the last reset |
| TenantQuota.TenantQuotaTracker.ResetIfNewDay | internal/usecase/tenant_quota.go:38-51 | a new date forgets all uses, the same date forgets none |
| TenantQuota.TenantQuotaTracker.Record | internal/usecase/tenant_quota.go:88-132 | one more use of one tenant; other tenants are unaffected |
| TenantQuota.TenantQuotaTracker.CheckLimit | internal/usecase/tenant_quota.go:76-127 | an error exactly when a limit is set and reached by the uses since the last reset |
| TenantQuota.SessionsAreLargestSurplus | internal/usecase/tenant_quota.go:88-98 | the clamped session count is the largest surplus of increments over decrements in any end part of the history |
| TenantQuota.ToolCallsAreCounted | internal/usecase/tenant_quota.go:113-115 | each tool call of the tenant is counted once |
| TenantQuota.TokensAreSummed | internal/usecase/tenant_quota.go:130-132 | the token count is the sum of the tenant's additions |
| QuotaRaces.SameObject | internal/usecase/tenant_quota.go:53-72 | callers racing on the first use of a tenant all get the same counters object |
| QuotaRaces.NoAdditionLost | internal/usecase/tenant_quota.go:113-132 | in every interleaving each of a tenant's counters is the sum over the callers that have added, each once |

## Left out

- Timestamps of messages and sessions, and which sessions are stale: clocks are not modelled; the reaper gets the stale IDs.
- Token usage totals, events, tracing, logging and audit emission of the agent loop: they do not affect the transcript.
- The memory query of a run, and the text of memory and skill lines: the rendered lines are given.
- How errors are classified and how long a retry waits: the class of an error and whether waiting is cancelled are part of the environment.
- How a tool is looked up, approved and executed: only the shape of its result matters here.
- AgentLoop.ContextGuard.Check: the limit is a given integer, and the floating-point computation of it from the model's window is not modelled.
- AgentLoop.Agent.HandleInner: assumes exclusive access to the session during the run, which the session locker gives (SessionLock.MutualExclusion); without a locker the environment simply grants the lock.
- Compression.Compressor.ForceCompress: assumes that nobody else changes the session between reading it and replacing its messages, which the session locker gives.
- SessionLock.MutualExclusion: each unlock function is called once, as its documentation demands; a second call is not modelled.
- SessionStore.SessionManager.LoadFromDisk: a file that cannot be read or decoded counts as absent, and write errors are not modelled.
- SessionStore.SessionManager.ListSessionsForTenant: the order of the list is that of a Go map walk, so a set is returned.
- SessionStore: the isolation guarantee needs calls that carry a tenant and files that are stamped; calls without a tenant bypass the check in the code and are only specified case by case.
- AuditRetention.FileAuditLogger.EnforceRetention: characters stand for bytes; stripping of a carriage return by the scanner and failures of the reopening that follows another failure are not modelled.
- EmbeddingCache.CachedEmbedder.Embed: hash collisions return the other text's vector in the code as in the model; EmbeddingRaces.ReturnsInnerEmbedding assumes none. A size of 0 or less means no cache at all.
- QueryCache.CachedMemory.Query: freshness assumes no collision of digests and a provider whose failed writes change nothing.
- Synchronisation of the inner memory provider as an operation of its own: the cache passes it through without dropping entries (QueryCache.StaysCoherentIff covers its effect).
- TenantQuota: 64-bit wrap-around of the counters, the race at the change of date, and concurrent decrements, whose check and subtraction are two steps in the code.
- Channels, gateways, HTTP clients, device and browser tools, set-up and onboarding, circuit breaker, encryption, encodings, role tables and registries: plumbing, or settled by reading one branch.
