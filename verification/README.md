# Models of the agent service and the job worker

This project states and proves what the repository's protocols are for. It covers the RAG result cache over the
versioned vector store, the durable supervisor with its approval gate, the event stream from agent to client, the
corrective RAG loop, the session store with its trimmer, the migration runner, and text chunking.

`dafny verify dfyconfig.toml` checks everything.

Code that changes state in place is a class whose methods are proved against a specification function on values, and
code with loops is a method with invariants. Concurrency is a state machine: one action is one stretch of code between
two suspension points (or one database transaction), an action that cannot happen in a state changes nothing, and the
theorems range over every list of actions, that is, over every interleaving. Oracles, the clock and the outcomes of
specialists, models and databases are parameters or actions.

| file | what it models |
|---|---|
| `ResultCache.dfy`, `ResultCacheProtocol.dfy` | the single-flight TTL and LRU cache: leaders, followers, failures, cancellation |
| `Decimal.dfy` | the cache key text and the zero-padded chunk id |
| `VectorMath.dfy` | TF-IDF vectors, both cosine forms, Cauchy-Schwarz over finite maps |
| `VectorStore.dfy`, `VectorStoreProtocol.dfy` | the bounded index, its derived caches, and queries in three phases |
| `Similarity.dfy` | what the scores of a query are, from word counts alone |
| `Freshness.dfy` | the cache and the store together |
| `Specialists.dfy`, `Supervisor.dfy`, `DurableRun.dfy` | the plan loop over a memoizing engine, attempted again and again |
| `Gate.dfy` | how each step ends, what it writes to the step store, and that a refusal is final |
| `RunJob.dfy` | the job's options: which steps wait for approval, by id and by kind |
| `JobStep.dfy` | the `job_step` table and the approval claims |
| `Spending.dfy`, `Claims.dfy` | the attempts and the table together: reported totals, and which waiting steps can be claimed |
| `Json.dfy`, `Sse.dfy`, `Stream.dfy` | JSON strings, the wire codec, the guarded stream and the heartbeat |
| `Trim.dfy`, `SessionStore.dfy` | pair-safe trimming and the session store |
| `Crag.dfy`, `Grounding.dfy` | search, grade, answer: citations, budgets and costs, and where the hits come from |
| `Migrate.dfy` | concurrent migration runners |
| `Chunking.dfy` | overlapping windows |
| `Sorting.dfy`, `Prelude.dfy` | stable sorting, distinct sequences, options |

## Promises the code keeps only in part

For each of these there is the exact condition under which the promise is kept, and an input for which it is not.

- Flagging a kind of specialist is meant to stop every body of that kind until it is approved. The flag is looked up by
  the kind of the last planned step with an id, while the body that runs is the first one's, so it is kept exactly when
  each reachable first step of a flagged kind has its id flagged too, by name or through that last step
  (`RunJob.FlaggedKindsApprovedExactly`). With `DataProcessing` flagged, a plan that names one id for processing and
  then for research runs the processing body without a decision (`RunJob.FlaggedProcessingRuns`).
- Plan validation does not make step ids distinct, and the engine remembers results by id. A finished plan has a
  recorded run, and so a result, of its own for every step exactly when its ids are distinct
  (`DurableRun.OwnResultsExactly`); steps that share an id end with one result (`DurableRun.RepeatedIdRepeatsResult`),
  as in the plan whose processing step ends with the findings of its research step
  (`DurableRun.ProcessingEndsWithFindings`).
- The token total of a job counts each published document step once exactly when the ids whose rows were overwritten
  under another spelling had nothing to count (`Spending.CountedExactly`); rows are overwritten exactly when one uuid is
  published in two spellings (`Spending.OverwrittenExactly`), as in the plan of `Spending.SpellingLosesCount`.
- A flagged step that waits is registered so that it can be claimed. It can, until a claim takes it, exactly when its
  row was not first made by a usage under another spelling of its uuid (`Claims.ClaimableExactly`); when no uuid is
  written in two spellings it never is (`Claims.RegisteredIsFirst`). The plan of `Claims.RespelledNotClaimable` waits
  for a claim that cannot be made.
- A claim reports the job's token total except for an empty request, where it reports zero; such a request counts as
  claimed even over budget (`JobStep.ReportedTotal`, `JobStep.EmptyRequestSeesNoSpending`). The wire schema refuses
  empty requests earlier.
- The stream guard says it closes the event source on every exit. It does, except when it is cancelled at its first
  suspension, which lies before its `try` (`services/api/app/api/v1/_stream.py:305`), while the source is still running
  (`Stream.SourceOpenAtExit`, `Stream.SourceLeftOpen`).
- A history whose tool returns follow their calls stays so under every limit exactly when no suffix of it that pairs up
  begins after the call that one of its returns answers (`Trim.OrderKeptExactly`, `Trim.ReusedIdLosesOrder`).
- The trimmer says the first message is always retained. It is, exactly when it has parts (`Trim.TrimBounds`,
  `Trim.FirstMessageDropped`): messages without parts are filtered out
  (`services/api/app/stores/session_store/_trim.py:52`, `:58`).
- The session store accepts one kind of id that its documentation refuses: a valid id followed by one newline, where
  the pattern's `$` matches as well (`SessionStore.IdCheckExactly`).

## Model

| member | source | states |
|---|---|---|
| ResultCache.Cache.EvictExpired | services/api/app/workflows/rag_cache.py:62-76 | collecting the expired keys and deleting them one by one leaves exactly the unexpired entries, in order |
| ResultCache.Cache.EvictLru | services/api/app/workflows/rag_cache.py:78-85 | the first entry goes, if there is one |
| ResultCache.Cache.Begin | services/api/app/workflows/rag_cache.py:116-169 | disabled caching changes nothing; otherwise the request hits, follows or leads, with every field of the new state |
| ResultCache.Cache.Finish | services/api/app/workflows/rag_cache.py:186-273 | a leader's success, wrong type, failure or cancellation, with every field of the new state |
| ResultCacheProtocol.AlwaysSingleFlight | services/api/app/workflows/rag_cache.py:131-273 | in every reachable state each pending key has exactly one live leader, an unresolved future and no entry, and every unresolved future is pending |
| ResultCacheProtocol.NoOrphans | services/api/app/workflows/rag_cache.py:226-246 | once no leader runs nothing is pending and every follower's future is resolved |
| ResultCacheProtocol.SettledOnce | services/api/app/workflows/rag_cache.py:217-223 | whatever happens next, a resolved future keeps its value |
| ResultCacheProtocol.LeaderTellsAll | services/api/app/workflows/rag_cache.py:186-273 | how a leader's run ends is what its caller sees and what every follower is told, a cancellation as a timeout |
| ResultCacheProtocol.CancellationIsOwn | services/api/app/workflows/rag_cache.py:173-180 | a request sees a cancellation only if it was cancelled itself |
| ResultCacheProtocol.AnswersAreFresh | services/api/app/workflows/rag_cache.py:38-60 | every answer comes from a run with the same query, retry limit and generation that never searched an older store |
| ResultCacheProtocol.AlwaysLru | services/api/app/workflows/rag_cache.py:131-169 | between steps the cache fits its size, lists keys strictly by last insertion or hit, and hits plus misses are the completed lookups |
| ResultCacheProtocol.EvictsLeastRecent | services/api/app/workflows/rag_cache.py:201-215 | storing keeps the new entry as it is and pushes out at most one key, the least recently touched |
| ResultCacheProtocol.HitWithinTtl | services/api/app/workflows/rag_cache.py:133-147 | a hit returns an entry no older than the TTL and makes it the most recent |
| ResultCacheProtocol.RequestGets | services/api/app/workflows/rag_cache.py:131-169 | a new request finishes at once exactly when the cache holds an entry of its key no older than the TTL, with that answer; else it follows the run in flight or leads one; exactly the entries no older than the TTL stay; hits and misses count |
| ResultCacheProtocol.StoredWhenRun | services/api/app/workflows/rag_cache.py:198-207 | an entry names the run that gave its text and the moment it was stored |
| ResultCacheProtocol.WithoutCaching | services/api/app/workflows/rag_cache.py:116-126 | with a TTL of zero each request sees its own run end, unchecked, and the cache is left alone |
| Decimal.KeyMaterialInjective | services/api/app/workflows/rag_cache.py:58 | the key text determines query, retry limit and generation, even for queries with bars in them |
| Decimal.ChunkIdInjective | services/api/app/stores/vector_store/in_memory.py:214 | padding to four digits never merges two ordinals |
| VectorMath.CosineRefines | services/api/app/stores/vector_store/in_memory.py:362-394 | the form with pre-computed norms that walks the smaller map equals the plain intersection form |
| VectorMath.CosineWithNormsExactly | services/api/app/stores/vector_store/in_memory.py:362-394 | times the two norms the value is the sum over the common terms of the products of their weights, and it is zero when a norm is |
| VectorMath.CauchySchwarz | services/api/app/stores/vector_store/in_memory.py:581-592 | the squared dot product is at most the product of the sums of squares, for vectors of any size |
| VectorMath.CosineBound | services/api/app/stores/vector_store/in_memory.py:562-592 | the similarity of non-negative vectors lies in [0, 1] |
| VectorMath.CalculateIdf | services/api/app/stores/vector_store/in_memory.py:494-523 | the counting loops compute log(N / df) for exactly the terms that occur |
| VectorMath.IdfNonNegative | services/api/app/stores/vector_store/in_memory.py:494-523 | no weight is negative, as 1 <= df <= N |
| VectorMath.CalculateTfIdfVector | services/api/app/stores/vector_store/in_memory.py:525-559 | the loop over the counter computes tf times idf per distinct token, in order of first occurrence |
| VectorMath.CountsPartition | services/api/app/stores/vector_store/in_memory.py:548-549 | every token is counted under exactly one term, so term frequencies add up to one |
| VectorMath.TfIdfShape | services/api/app/stores/vector_store/in_memory.py:525-559 | the vector lists each term once and has no negative weight when the idf has none |
| VectorStore.Store.Evict | services/api/app/stores/vector_store/in_memory.py:460-481 | the oldest documents leave the three lists together and their estimates leave the account |
| VectorStore.Store.Add | services/api/app/stores/vector_store/in_memory.py:142-173 | an oversized chunk rejects the call untouched; otherwise append, shed to both limits, invalidate, and move the generation |
| VectorStore.Store.ClearAll | services/api/app/stores/vector_store/in_memory.py:396-419 | everything is reset but the generation, which moves on |
| VectorStore.Store.BeginQuery | services/api/app/stores/vector_store/in_memory.py:240-282 | the checks, the cached or fresh IDF map, and the snapshot with its generation |
| VectorStore.Store.Score | services/api/app/stores/vector_store/in_memory.py:328-360 | the worker's loops compute the ranking of the snapshot and the vectors and norms it had to derive |
| VectorStore.Store.EndQuery | services/api/app/stores/vector_store/in_memory.py:294-298 | derived vectors are published only if they were missing and the generation has not moved |
| VectorStoreProtocol.AlwaysRepresents | services/api/app/stores/vector_store/in_memory.py:148-173 | after any adds, clears and queries: a suffix of what was added, aligned lists, one block of ordinals, an exact memory account, both limits |
| VectorStoreProtocol.AddKeepsLongest | services/api/app/stores/vector_store/in_memory.py:142-173 | a call is refused exactly for a chunk that is too long; otherwise the longest run of newest documents that fits both limits is kept |
| VectorStoreProtocol.EstimateExactly | services/api/app/stores/vector_store/in_memory.py:438-458 | two bytes a character, of the document and of its tokens, eight a token, and a hundred |
| VectorStoreProtocol.EvictExact | services/api/app/stores/vector_store/in_memory.py:460-481 | clamping the account at zero never changes it |
| VectorStoreProtocol.ChunkIdsDistinct | services/api/app/stores/vector_store/in_memory.py:213-216 | no two stored documents share a chunk id |
| VectorStoreProtocol.GenerationMoves | services/api/app/stores/vector_store/in_memory.py:114-122 | the generation moves by one with each change of the corpus and never otherwise |
| VectorStoreProtocol.AlwaysCoherent | services/api/app/stores/vector_store/in_memory.py:250-300 | under any interleaving of adds, clears and query phases the IDF map, vectors and norms are absent or equal to recomputation |
| VectorStoreProtocol.ScoreIsFresh | services/api/app/stores/vector_store/in_memory.py:303-360 | scoring with or without cached vectors gives the ranking by the plain cosine |
| VectorStoreProtocol.AnswersAreFresh | services/api/app/stores/vector_store/in_memory.py:284-300 | every query is answered as if its snapshot had been scored from nothing but the tokens |
| VectorStoreProtocol.AskExactly | services/api/app/stores/vector_store/in_memory.py:240-282 | when a query is refused, when it is answered with nothing, and that otherwise its own tokens are scored against the corpus as it is |
| VectorStoreProtocol.CachesFill | services/api/app/stores/vector_store/in_memory.py:250-300 | a scored query leaves the IDF map behind, and one that derived the vectors publishes them fresh exactly when the corpus has not moved |
| VectorStoreProtocol.OrderRanksAll | services/api/app/stores/vector_store/in_memory.py:354-359 | the ranking lists every document once, by score and then position, with scores in [0, 1] |
| VectorStoreProtocol.BestDocuments | services/api/app/stores/vector_store/in_memory.py:356-359 | the answer is the front of that ranking, min(top_k, corpus size) long, each hit with one document's own text, ordinal and score |
| Similarity.ScoreExactly | services/api/app/stores/vector_store/in_memory.py:303-394 | a document's score times the two norms is the sum over the terms it shares with the query of the products of their tf-idf weights, from multiset counts and document sets |
| Similarity.NothingInCommon | services/api/app/stores/vector_store/in_memory.py:303-394 | a document that shares no term with the query scores zero |
| Similarity.SameWords | services/api/app/stores/vector_store/in_memory.py:303-394 | a document of the query's own words scores one, unless they weigh nothing |
| Freshness.AlwaysJoined | services/api/app/workflows/rag_cache.py:38-60 | in every interleaving of requests, searches and store changes, each run's searches are exactly the corpora of the generations it saw |
| Freshness.AnswersAreFresh | services/api/app/workflows/rag_cache.py:128-224 | every answer was computed by a run for the same key, and every corpus that run searched was current at the request's generation or later |
| Grounding.AnswerIdsDistinct | services/api/app/stores/vector_store/in_memory.py:194-216 | under any interleaving no two hits of an answer share a chunk id |
| Grounding.CitationOrderDetermined | services/api/app/workflows/citation.py:13-26 | the order in which an answer is cited does not depend on how the store listed it |
| Specialists.TaskRoundTrip | packages/schemas/src/workflows.ts:51-68 | a validated specialist input survives being spread into an object and parsed again |
| Specialists.MarkdownByDefault | packages/schemas/src/workflows.ts:51-68 | a document step without a format is written in markdown |
| Specialists.MergeKeepsKind | packages/agents/src/supervisor.ts:420-426 | no edit changes which specialist runs |
| Specialists.MergeNothing | packages/agents/src/supervisor.ts:420-426 | an edit without fields is no edit |
| Specialists.MergeKeepsUntouched | packages/agents/src/supervisor.ts:420-426 | a field that the edit does not name keeps its planned value |
| Specialists.MergeTakesEdit | packages/agents/src/supervisor.ts:420-426 | a field that the edit names takes the edit's value |
| Specialists.MergeReplaces | packages/agents/src/supervisor.ts:420-426 | an edit that gives every field replaces the whole task |
| Specialists.MergeSound | packages/agents/src/supervisor.ts:420-426 | an edit that is no object is refused, and a merged task meets the schema |
| Specialists.OpenTagExactly | packages/agents/src/supervisor.ts:151 | the scanner finds an opening tag exactly where the pattern matches, in its one way |
| Specialists.CloseTagExactly | packages/agents/src/supervisor.ts:152 | the same for closing tags |
| Specialists.SelfClosingExactly | packages/agents/src/supervisor.ts:153 | a self-closing tag is found exactly when its pattern matches somewhere |
| Specialists.OpenTagsExactly | packages/agents/src/supervisor.ts:166-171 | the scan lists the matches from left to right, each the first from where the last one ended, by lower-case name |
| Specialists.CloseTagsExactly | packages/agents/src/supervisor.ts:172-177 | the same for closing tags |
| Specialists.MarkupExactly | packages/agents/src/supervisor.ts:162-180 | markup is a self-closing tag, or an opening and a later closing tag of one name, as the scans list them |
| Specialists.NameCharacters | packages/agents/src/supervisor.ts:151-153 | the characters of a tag name, one by one |
| Specialists.LoweredExactly | packages/agents/src/supervisor.ts:168-175 | how a tag name is lowered |
| Specialists.IncludesExactly | packages/agents/src/supervisor.ts:189 | the inclusion test finds exactly the substrings |
| Specialists.HasHtmlMarkup | packages/agents/src/supervisor.ts:147-180 | the three tag scans, read off their patterns, and the loop over first openings find markup exactly when there is a self-closing tag or a closing tag after an opening one of its name |
| Supervisor.Worker.Step | apps/worker/src/main.ts:259-275 | a flagged step is registered, which can fail, and then waits at its gate in front of the checkpointed step: misconfigured, waiting, expired, rejected, approved |
| Supervisor.Worker.SumUsage | packages/agents/src/supervisor.ts:531-543 | the metrics are the sums over all results |
| Supervisor.Worker.Dispatch | packages/agents/src/supervisor.ts:445-547 | the plan loop, with its handoff, events, results and early exits |
| Supervisor.WindowsDisjoint | packages/agents/src/supervisor.ts:458-463 | the windows of two consuming steps do not overlap, so no citation reaches two documents |
| Supervisor.WindowWhole | packages/agents/src/supervisor.ts:516-518 | no step inside a window consumed anything, so nothing gathered is lost |
| Supervisor.WindowBegins | packages/agents/src/supervisor.ts:458-463 | a window begins at the last consuming step or at the start |
| Supervisor.GatherSplit | packages/agents/src/supervisor.ts:516-518 | each research step's citations are in its window's handoff, whole and in their place, and no other step adds any |
| Supervisor.AlwaysWalked | packages/agents/src/supervisor.ts:452-522 | after any number of steps of any attempt, handoff, events and results are what the completed steps determine |
| Supervisor.TraceShape | packages/agents/src/supervisor.ts:465-546 | the trace is a start and a completion per step in plan order, then one completion with the summed tokens, or one error for the failing step, or a crash |
| Supervisor.PublishedTotals | packages/agents/src/supervisor.ts:531-546 | each published count is the sum of that count over the results, and the step count is the plan's |
| Supervisor.VerifiedDocuments | packages/agents/src/supervisor.ts:182-201 | with verification on every completed document has something to read, names a source if it was given one, and has markup as its format asks |
| DurableRun.AlwaysConsistent | apps/worker/src/main.ts:246-276 | for every plan and any attempts the memo holds exactly what one recorded call per id produced, each the first step with that id, on the right, approved input |
| DurableRun.BodiesSucceedOnce | apps/worker/src/main.ts:246-276 | over all crashes and re-runs of any plan each id has at most one recorded run, in plan order |
| DurableRun.RunsAgainOnlyIfLost | apps/worker/src/main.ts:246-276 | a body runs a second time only if the first run died, threw, or returned to an engine that died before recording the result |
| DurableRun.BodiesAreApproved | apps/worker/src/main.ts:261-271 | whatever the plan, no body with a flagged id runs without the recorded approval, and each is of the kind planned first under its id |
| DurableRun.HandedExactly | packages/agents/src/supervisor.ts:452-463 | over all attempts, a document step without citations of its own ran on exactly the citations found since the last consumer, in order, and every other step on its own input |
| DurableRun.ReplayEquivalence | packages/agents/src/supervisor.ts:445-547 | for every plan, the attempt that finally finishes has the results and events of one uninterrupted run with the same outcomes, and the recorded calls are that run's calls |
| DurableRun.OwnResultsExactly | packages/schemas/src/workflows.ts:147-150 | a finished plan has one recorded run per step exactly when no id repeats |
| DurableRun.RepeatedIdRepeatsResult | packages/schemas/src/workflows.ts:147-150 | steps that share an id end with one result |
| DurableRun.ProcessingEndsWithFindings | packages/schemas/src/workflows.ts:147-150 | the two-step plan whose processing body never runs and whose processing step ends with research findings |
| Gate.FirstDecisionCounts | apps/worker/src/main.ts:261-269 | the recorded decision counts, or else the first that arrives at the gate |
| Gate.GateExactly | apps/worker/src/main.ts:261-271 | exactly when a step ends as misconfigured, unstored, expired, rejected or waiting |
| Gate.BodyExactly | apps/worker/src/main.ts:271-273 | exactly when a step ends for its edited arguments, by its specialist's own error, or with its process |
| Gate.BodyLeaves | apps/worker/src/main.ts:271-273 | a body that runs leaves one call on the merged input, and its result in the memo if it was recorded |
| Gate.CompletionExactly | packages/agents/src/supervisor.ts:473-521 | a step with a result completes with it exactly when its document, if verified, passes both verdicts |
| Gate.WritesExactly | apps/worker/src/main.ts:267-268 | a step writes its pending row when it comes to its gate, and its tokens when it has completed with a usage |
| Gate.RegisteredExactly | apps/worker/src/main.ts:261-271 | over any attempts each gate awaited and each flagged body that ran has its pending row, only flagged planned steps have one, and it comes before the step's tokens |
| Gate.WaitsRegistered | apps/worker/src/main.ts:267-268 | an attempt that stops at a silent gate leaves that step's pending row |
| Gate.RefusalIsFinal | apps/worker/src/main.ts:269-270 | a gate that timed out or was refused stays so; its body never runs and never has a result |
| RunJob.LastEntryWins | apps/worker/src/main.ts:465 | the kind looked up for an id is that of the last planned step with it |
| RunJob.FlaggedKindsApprovedExactly | apps/worker/src/main.ts:462-475 | every body of a flagged kind runs approved in every history exactly when each reachable first step of a flagged kind has a flagged id or a last step of a flagged kind |
| RunJob.FlaggedIdsApproved | apps/worker/src/main.ts:466-475 | a body whose id is flagged runs approved, and one that neither its id nor its last kind flags runs without a decision |
| RunJob.FlaggedProcessingRuns | apps/worker/src/main.ts:465-475 | the plan whose flagged processing body runs with no decision asked for or made |
| JobStep.JobStepStore.RegisterPending | apps/worker/src/stores.ts:214-219 | a row that exists is left as it is |
| JobStep.JobStepStore.RecordStepUsage | apps/worker/src/stores.ts:221-229 | the count is set, never added, and the approval state stays |
| JobStep.JobStepStore.SumTokens | apps/worker/src/stores.ts:242-249 | the aggregate over one job's rows, in any scan order |
| JobStep.JobStepStore.ClaimPending | apps/worker/src/stores.ts:231-284 | update, compare the count, and roll back on a mismatch |
| JobStep.JobStepStore.ClaimApprovalTargets | apps/web/src/lib/approvals.ts:184-204 | the outcome and the table after it |
| JobStep.AlwaysTold | apps/web/src/lib/approvals.ts:190-203 | over every history a granted claim carries its request's decisions as they were sent, and one that is not claimable its request's shape |
| JobStep.AnswersInOrder | apps/web/src/lib/approvals.ts:184-204 | every claim is answered once, in order, about its own request |
| JobStep.FindDuplicateTarget | apps/web/src/lib/approvals.ts:96-103 | none exactly when all ids differ, otherwise the first id that repeats an earlier one |
| JobStep.ClaimAllOrNothing | apps/worker/src/stores.ts:254-275 | a claim takes its whole set exactly when no id repeats, in any spelling, and all are pending; otherwise the table is unchanged |
| JobStep.AlwaysOnceOnly | apps/worker/src/stores.ts:231-284 | over any interleaving what a full claim took is consumed and in no other full claim |
| JobStep.ConsumeOnce | apps/web/src/lib/approvals.ts:155-204 | two full claims share no step, and none repeats one |
| JobStep.ConsumedForEver | apps/worker/src/main.ts:263-267 | consumed never returns to pending and keeps its moment, whatever is registered again |
| JobStep.ConsumedByClaim | apps/worker/src/stores.ts:254-275 | every consumed row was taken by a full claim |
| JobStep.BudgetRefusalIsFinal | apps/web/src/lib/approvals.ts:196-201 | a request refused for the budget cannot pass by being sent again, alone or with others |
| JobStep.UsageIsLast | apps/worker/src/stores.ts:221-229 | a job's rows hold each step's last recorded usage, read off the history alone |
| JobStep.ReportedTotal | apps/worker/src/stores.ts:231-249 | the reported total is the sum of those exactly when the request names a step or that sum is zero |
| JobStep.EmptyRequestSeesNoSpending | apps/worker/src/stores.ts:232-237 | the empty request that is claimed over budget |
| JobStep.ClaimedExactly | apps/web/src/lib/approvals.ts:192-203 | when a request is claimed and when it is refused for the budget, over every history |
| JobStep.RegisteredFirst | apps/worker/src/stores.ts:214-229 | a step is claimable only if it was registered before its usage was first recorded |
| JobStep.UuidExactly | apps/worker/src/stores.ts:214-229 | ids are one row exactly when they differ in the case of digits at most |
| Claims.ClaimableExactly | apps/worker/src/stores.ts:214-275 | over any attempts and transactions a registered step can be claimed exactly when no usage under another spelling made its row first and no earlier claim took it |
| Claims.RegisteredIsFirst | apps/worker/src/main.ts:261-271 | when no uuid is written in two spellings a flagged step is registered before it spends |
| Claims.RespelledNotClaimable | apps/worker/src/stores.ts:214-229 | the plan whose flagged step is registered, waits, and cannot be claimed |
| Spending.AlwaysPublishedRemembered | packages/agents/src/supervisor.ts:520-521 | in any attempts at any plan, what is published as a step's result is what the engine remembers for its id |
| Spending.AlwaysSpentAsPublished | apps/worker/src/main.ts:402-410 | the tokens recorded are, in order, those of the published completions |
| Spending.ReportedOnce | apps/worker/src/main.ts:402-410 | however often completions are published again, a claim is told one count per published document step, without those overwritten by another spelling of their uuid |
| Spending.OverwrittenExactly | apps/worker/src/stores.ts:221-229 | a row is overwritten by another id exactly when a published uuid is spelled in two ways |
| Spending.CountedExactly | apps/worker/src/stores.ts:221-249 | every published document step is counted exactly when the overwritten ones had nothing to count |
| Spending.SpellingLosesCount | apps/worker/src/stores.ts:221-229 | the plan whose two document steps spend twelve tokens of which seven are reported |
| Json.EscapeRoundTrip | services/api/app/patterns/sse.py:96 | any string, escaped and quoted, reads back as itself |
| Json.EscapePrintable | services/api/app/patterns/sse.py:96 | an escaped string holds no control character, so no CR and no LF |
| Json.ObjectRoundTrip | services/api/app/patterns/sse.py:118 | any object of string members reads back as its map, whatever its keys and their order |
| Sse.ParseSseEvents | services/api/app/patterns/sse.py:99-129 | the loop over lines computes the fold of the line rules, or fails where a payload does not validate |
| Sse.JsonRoundTrip | services/api/app/patterns/sse.py:75-96 | validating an event's JSON gives the event |
| Sse.FrameText | services/api/app/patterns/sse.py:96 | a frame names the event's kind and carries its payload, letter by letter |
| Sse.BarePayload | services/api/app/patterns/sse.py:30-59 | the payload of an event without fields |
| Sse.FieldPayload | services/api/app/patterns/sse.py:47-68 | the payload of a token or an error |
| Sse.ToolPayload | services/api/app/patterns/sse.py:36-44 | the payload of a tool call |
| Sse.SplitTerminated | services/api/app/patterns/sse.py:82 | splitting gives back the same lines whichever terminator each one ends with |
| Sse.WireRoundTrip | services/api/app/patterns/sse.py:87-129 | any events with heartbeats between frames parse back, with LF, CR or CRLF chosen line by line |
| Sse.UniformRoundTrip | services/api/app/patterns/sse.py:87-129 | the concatenated frames parse back as sent, and with every LF replaced by CR or CRLF |
| Stream.Guarded.DriveToQueue | services/api/app/api/v1/_stream.py:258-263 | the producer's loop takes its choices from the schedule up to the guard's turn and leaves the state of running them |
| Stream.Guarded.GuardLoop | services/api/app/api/v1/_stream.py:306-365 | the guard's loop with its exits: on the way to `finally` the state is that of the choices taken, save for the cleaning up |
| Stream.Guarded.RunWithLifecycleGuards | services/api/app/api/v1/_stream.py:300-376 | the two tasks' own loops, run over any schedule, end in the state that the theorems below speak of, and stop only at an exit or at the end of the schedule |
| Stream.FramesArePrefix | services/api/app/api/v1/_stream.py:306-365 | the frames are an in-order prefix of the produced events and at most one error of the guard's own, within the cap |
| Stream.DoneMeansFinished | services/api/app/api/v1/_stream.py:324-352 | when the done mark is taken the producer has finished, all it produced was sent, and a failure is told exactly when there was one |
| Stream.NeverStarved | services/api/app/api/v1/_stream.py:258-263 | a waiting guard with a finished producer always has an item to take |
| Stream.FailureTold | services/api/app/api/v1/_stream.py:317-352 | which message goes with which failure, and with a timeout |
| Stream.LeavesForReason | services/api/app/api/v1/_stream.py:308-365 | the guard leaves only once the source's end was taken, a wait timed out, the cap was reached, the client was gone, or it was cancelled or closed |
| Stream.SourceOpenAtExit | services/api/app/api/v1/_stream.py:300-307 | the source is open at exit exactly when the guard was cancelled at its first suspension with the source running |
| Stream.ClosedOnceResumed | services/api/app/api/v1/_stream.py:366-376 | past that suspension every exit finds the source closed |
| Stream.SourceLeftOpen | services/api/app/api/v1/_stream.py:301-305 | the run that leaves it open |
| Stream.WithHeartbeat | services/api/app/api/v1/agent.py:153-187 | without its comments the output is the upstream in order and ends as the upstream does; one upstream call at a time, never restarted by an idle wait, and cancelled exactly when the generator is stopped while it is open and unfinished |
| Stream.ClientSees | services/api/app/api/v1/_stream.py:266-376 | from source to client: whatever the interleaving, the client parses the source's events in order, ending in the guard's error if one was sent |
| Trim.CollectClosers | services/api/app/stores/session_store/_trim.py:82-93 | the loop collects the ids that returns and named retries close |
| Trim.FindValidCut | services/api/app/stores/session_store/_trim.py:61-69 | the least cut from the ideal one that orphans no return |
| Trim.OpensAndCloses | services/api/app/stores/session_store/_trim.py:72-93 | part by part, what opens an id and what closes it; a retry without a tool name does not |
| Trim.PairedExactly | services/api/app/stores/session_store/_trim.py:61-69 | messages pair up exactly when each return and named retry among them has its call among them |
| Trim.TrimBounds | services/api/app/stores/session_store/_trim.py:34-58 | at most max messages, none empty, and the first one kept exactly when it has parts |
| Trim.RoomForAll | services/api/app/stores/session_store/_trim.py:51-52 | a history that fits loses its empty messages only |
| Trim.FirstMessageDropped | services/api/app/stores/session_store/_trim.py:51-58 | the history that loses its first message |
| Trim.TrimTwice | services/api/app/stores/session_store/_trim.py:34-58 | trimming twice equals trimming once |
| Trim.TailIsLongest | services/api/app/stores/session_store/_trim.py:54-58 | what stays is the longest suffix from the ideal cut in which every return's call also stays |
| Trim.ReturnsKeepTheirCalls | services/api/app/stores/session_store/_trim.py:61-93 | part by part: every tool return and named retry kept after the first message has its call kept |
| Trim.OrderKeptExactly | services/api/app/stores/session_store/_trim.py:61-69 | returns stay after their calls under every limit exactly when no suffix that pairs up begins after the call of a return it holds |
| Trim.DistinctCallsKeepOrder | services/api/app/stores/session_store/_trim.py:61-69 | ids used for one message's call only are enough for that |
| Trim.ReusedIdLosesOrder | services/api/app/stores/session_store/_trim.py:65-68 | the history that loses its order |
| SessionStore.IdCheckExactly | services/api/app/stores/session_store/in_memory.py:215-230 | matching the pattern up to where `$` matches agrees with the documentation except for one newline at the end |
| SessionStore.AllowedExactly | services/api/app/stores/session_store/in_memory.py:215-230 | the characters of an id, one by one |
| SessionStore.UuidAccepted | services/api/app/stores/session_store/in_memory.py:215-230 | every uuid is an id |
| SessionStore.InMemorySessionStore.GetHistory | services/api/app/stores/session_store/in_memory.py:87-94 | the stored history or the empty one, and a new access time |
| SessionStore.InMemorySessionStore.SaveHistory | services/api/app/stores/session_store/in_memory.py:123-183 | compact, trim, store, and evict when over the limit |
| SessionStore.InMemorySessionStore.ClearSession | services/api/app/stores/session_store/in_memory.py:203-213 | history, access time and lock go together |
| SessionStore.InMemorySessionStore.CleanupExpiredSessions | services/api/app/stores/session_store/in_memory.py:262-275 | the collecting and clearing loops drop exactly the expired ids and count them |
| SessionStore.SaveEvicts | services/api/app/stores/session_store/in_memory.py:146-183 | a save evicts exactly when the id is new and the store full, then one least recently accessed session that is not the one saved |
| SessionStore.AlwaysSound | services/api/app/stores/session_store/in_memory.py:71-213 | every stored id has an access time, locks are kept for exactly the ids with one, and the size limit holds |
| SessionStore.SweepExactly | services/api/app/stores/session_store/in_memory.py:250-275 | a sweep leaves exactly the unexpired ids, untouched |
| SessionStore.GetReturnsLastSave | services/api/app/stores/session_store/in_memory.py:71-213 | over any operations a read returns the trimmed last save unless it was cleared, expired or evicted since |
| SessionStore.PreparedExactly | services/api/app/stores/session_store/in_memory.py:123-144 | what a save keeps of the compacted history: at most the limit, none empty, all if they fit, else the first and the longest tail that answers no missing call |
| SessionStore.StoredWasSaved | services/api/app/stores/session_store/in_memory.py:123-183 | every stored history is what a save of its own session kept, within the limit |
| Crag.OrderUnique | services/api/app/workflows/citation.py:13-26 | the hits by descending score, then ascending id, none lost; one result for every listing when ids differ |
| Crag.ValidateExactly | services/api/app/workflows/citation.py:29-45 | citing nothing is one error, citing unknown ids another that names exactly those |
| Crag.TruncateChunks | services/api/app/workflows/rag_prompts.py:53-83 | the longest prefix within the budget, at least one chunk |
| Crag.TruncateHitList | services/api/app/workflows/rag_prompts.py:85-115 | the loop computes the truncation of hits |
| Crag.TruncateFacts | services/api/app/workflows/rag_prompts.py:85-115 | truncation keeps the longest prefix that fits, at least one hit, and a second one changes nothing |
| Crag.Workflow.RunAgentWithRetry | services/api/app/workflows/rag_llm.py:78-132 | the retry loop's value, its calls and its sleep |
| Crag.CallBounds | services/api/app/workflows/rag_llm.py:81-129 | at most A calls and base * (2^(A-1) - 1) + (A - 1) of sleep |
| Crag.CallStopsAt | services/api/app/workflows/rag_llm.py:81-129 | the call stops at the first attempt without a transient error or at the last, having slept after each before it |
| Crag.DelayDoubles | services/api/app/workflows/rag_llm.py:119-128 | the first delay is the base and the jitter, and each further one doubles the base |
| Crag.Workflow.Execute | services/api/app/workflows/corrective_rag.py:127-321 | the three steps, their state and their error exits, a search that raises among them |
| Crag.RunEnds | services/api/app/workflows/corrective_rag.py:127-321 | at most max(1, limit) searches, the first for the initial and the others for the widened number of hits, ending at the first that raises, finds nothing or is graded enough; citations are the longest in-budget prefix of the last search's ordered hits and are the hits shown; the answer is what the model says to them, or the apology that fits; validation never fails |
| Crag.RunCosts | services/api/app/workflows/rag_llm.py:53-132 | at most (max(1, limit) + 1) * A agent calls and as many times the sleep of one |
| Migrate.FilesExactly | packages/db/bin/migrate.ts:64-68 | the file list is the .sql names, each once, sorted by UTF-16 code unit, whatever order the directory gives |
| Migrate.PendingIsRest | packages/db/bin/migrate.ts:71-74 | when a prefix is applied, what is pending is the rest in order |
| Migrate.AcquireAdvisoryLock | packages/db/bin/migrate.ts:155-184 | held exactly when one of sixteen polls succeeds; giving up takes sixteen polls and 30000 ms |
| Migrate.Client.Transact | packages/db/bin/migrate.ts:256-267 | a file's SQL and its row together, or neither |
| Migrate.Client.ApplyMigrations | packages/db/bin/migrate.ts:244-268 | the loop over pending files up to the first failure |
| Migrate.LoopIsSteps | packages/db/bin/migrate.ts:254-268 | that loop is the concurrent runner's steps without interference |
| Migrate.AlwaysSound | packages/db/bin/migrate.ts:225-275 | under any interleaving of runners, failures and crashes: lock, table, schema and every runner's pending list agree |
| Migrate.ExactlyOnce | packages/db/bin/migrate.ts:225-275 | one runner works at a time, the tracked names are a prefix of the files, and the schema is the fold of exactly those |
| Migrate.FinishedIsFinal | packages/db/bin/migrate.ts:249-252 | after a successful run nothing changes again and every later run finds nothing pending |
| Migrate.GivesUpExactly | packages/db/bin/migrate.ts:162-182 | a concurrent runner times out at its sixteenth failed poll and not before |
| Migrate.LoneRunner | packages/db/bin/migrate.ts:225-275 | whatever happened before, a runner that finds the lock free and is left alone applies exactly the files that run, ends with success or the kind of the first failure, and frees the lock |
| Chunking.TrimExactly | packages/rag/src/ingest/index.ts:57 | what is chunked is the text between the first and last character that is not white space |
| Chunking.WhiteExactly | packages/rag/src/ingest/index.ts:57 | the characters that trimming removes, one by one |
| Chunking.ChunkText | packages/rag/src/ingest/index.ts:44-68 | which argument is refused and why, the defaults 1000 and 200, and otherwise as few windows of that size and overlap as reach the end, each at its place |
| Chunking.WindowsOverlap | packages/rag/src/ingest/index.ts:61-66 | no window exceeds the size and neighbours share exactly overlap characters |
| Chunking.WindowsRebuild | packages/rag/src/ingest/index.ts:61-67 | the windows without what they share rebuild the trimmed text |
| Chunking.WindowCount | packages/rag/src/ingest/index.ts:61-67 | ceil((len - overlap) / (size - overlap)) windows for a text longer than one |

## Left out

- Floating-point rounding: scores, times and delays are reals; `sqrt` and `log` are known by their defining facts only.
- `hashlib.sha256` of the cache key text, uuid syntax, `lower().split()` and `str.strip()`: parameters or injective by assumption.
- The engine's internals: it answers a step by its id alone, as the supervisor's step port does; an engine that numbers the repeats of an id is not modelled.
- DurableRun.ReplayEquivalence: speaks of attempts whose job-level completion reaches its sink; a sink that fails at an earlier event ends the attempt there and is among the outcomes.
- `hasStore` and the gate are the same in all attempts at a job.
- Telemetry spans, masked audit records and `normalizeApprovalRequest`: plumbing and single expressions.
- The foreign key from `job_step` to `job`, `created_at` defaults, and isolation anomalies between the sum and the update inside one claim.
- JSON values other than strings: an event payload that holds one is refused, also where a later duplicate key would replace it.
- `agen.aclose()`: a source that has ended is closed already, and the producer leaves its loop in no other way, so the call does nothing.
- A source that ignores cancellation for ever: the guard then never exits, and nothing is said about it.
- The list returned by a read of the session store is the stored one; a caller that changes it is not modelled.
- Non-message elements in a saved history, which the store rejects with a type error.
- Prompt wording and HTML escaping: the model sees the list of texts.
- Cancellation inside a corrective RAG run: the result cache models it as the end of the run.
- `NaN` and infinite chunk options, and `db:migrate` databases whose tracked names are not a prefix of the files to begin with.
- Redis, Chroma and Ollama variants, HTTP routes, rate limits, settings and UI.
