# Home budget pipeline: a model and its proofs

This project models the parts of the home budget pipeline where a mistake would be hard to see: two exact
combinatorial algorithms, the protocols that publish graphs, run model tasks, ingest receipts and rebuild the
production database, the identity-preserving refresh of receipt items, cent-exact allocation, and the caches,
budgets, counters and decisions around them. Code that changes things step by step is modelled by classes and
methods with loops; each method is tied to a specification, and the specification's properties are lemmas.
`dafny verify dfyconfig.toml` checks everything.

| file | models |
|---|---|
| `lattice_paths.dfy`, `ordered_matching.dfy` | the ordered row matcher: tables of optima and path counts, and why counting decides which pairs every optimum shares |
| `ocr_alternatives.dfy` | alternative readings from two composed alignments |
| `reference_matching.dfy` | augmenting-path matching of reference rows, and the score report built on it |
| `graph_projection.dfy` | bounded write batches; snapshot memberships and reading them back |
| `snapshot_publication.dfy` | staged publication by concurrent writers with retried and half-acknowledged transactions |
| `task_queue.dfy` | the durable model-task queue, its workers, crashes and the dispatcher |
| `receipt_ingest.dfy` | per-receipt processing, resets and reprocess requests |
| `item_refresh.dfy` | the refresh of receipt items and its guard; category decisions |
| `allocation.dfy` | half-up rounding, proportional allocation with a residual, category sheets |
| `brave_cache.dfy` | the two-level search cache |
| `source_packing.dfy` | round-robin order and greedy packing under a budget |
| `recommendation.dfy` | the recommendation rule, recovery of discovery errors, pooled search results |
| `product_evidence.dfy` | product confidence and re-scoring with OCR glyph evidence |
| `progress.dfy` | worker observations, batch counts and the batch state |
| `gpu_sampling.dfy` | coverage of GPU samples |
| `finite_sets.dfy`, `options.dfy` | counting arguments and optional values that the others share |
| `maintenance.dfy` | merge patches (section 2 of RFC 7386) and the pause, rebuild, resume script among acting controllers |

## Reading the model

- Weights, confidences and times are exact: reals or integers, money in integer cents. The `1e-8` tolerance of the
  row matcher is equality here, so the theorems about it hold for all real weights, negative ones included.
- Text matching, serialised sizes, OCR, model and search calls, clocks and the outcomes of transactions are
  parameters: a method's result holds for every choice of them.
- PostgreSQL, Neo4j, RabbitMQ and Kubernetes are small states with explicit steps. A step of a protocol happens
  atomically; crashes, lost acknowledgements and other actors' steps come between them.
- Publication: Neo4j transactions are atomic, a transaction whose outcome is unknown either took effect before the
  call returned or never does, fresh UUIDs are new, and `ReceiptSnapshot.sha` is unique.
- Queue: a crash of a worker releases its advisory lock and returns its unacknowledged delivery. Each of its two
  connections can also fail alone: a lost database connection ends the handling, but when only the broker connection
  fails the delivery returns to the queue while the worker, now orphaned, goes on under its lock.
- Ingest: persisting the parsed receipt does not commit by itself. A worker can lose its database session, and with it
  its lock, and still run OCR when its attempt was committed before; it commits nothing afterwards.
- Cache: all processes read one clock, and hashes of different parameters differ.
- Rebuild: while an autoscaler reports that it is paused it scales its target only to the zero replicas that the
  script asks for, and controllers create no new resources. Annotations are strings or absent.

## Where a promise does not hold as stated

- Validity windows of two ordinary cache fetches can overlap after a forced fetch in between
  (`BraveCache.RefreshUncovers` is such a run). Ordinary windows stay disjoint whatever is fetched later if and only if
  every forced fetch expires no earlier than the ordinary windows still open when it is made
  (`BraveCache.OrdinaryDisjointExactlyWhen`; `BraveCache.DisjointFromNowExactlyWhen` for one such moment).
- A published task can lose both its message and its chance of a result. `TaskQueue.SeparateLossLosesTask` is such a
  run, and `TaskQueue.LostExactlyWhen` tells when it happens: exactly when an orphaned worker that holds the lock, or is
  about to take it, crashes or loses its database connection as the last one at a task without result. Without a broker
  connection that fails alone nothing is lost (`TaskQueue.JointLossLosesNothing`).
- The settings recorded before a rebuild can be overwritten by a synchronisation that runs while the script resumes
  (`Maintenance.RunningSyncOverwrites`: the synchronisation started before detaching was refused). Every run of working
  resume commands restores the settings if and only if, as resuming begins, no synchronisation runs or can start
  (`Maintenance.ResumedExactlyWhen`).
- A retry of an activation that has published changes nothing, but answers true if and only if no other writer of the
  same receipt has published since (`SnapshotPublication.ActivationIsIdempotent`). A writer that does not hear true
  cleans up its own stage only, and the snapshot it retired stays in the store
  (`SnapshotPublication.RetiredStays`).
- `pack_sources` exceeds a negative budget with zero cost; `SourcePacking.PackingIsSound` states the equivalence.
  Its callers clamp the budget at zero.
- Reading the projection back loses edges that start outside the graph's nodes, and only those
  (`GraphProjection.EdgesReadBack`).
- With `max_attempts` zero a receipt that has no status row is still processed once
  (`ReceiptProtocol.ZeroLimitStillRunsOnce`), so the attempt bound needs a limit of at least one. A request has a row
  before its limit is checked, so its bound holds for zero too.
- OCR runs since the last reset can exceed the attempt limit when a reset meets a worker that has lost its session
  before OCR (`ReceiptProtocol.StrayExceedsLimit`). They exceed attempts by such workers at most
  (`ReceiptProtocol.AttemptsAreBounded`), and a reset that others may follow up with further attempts is safe if and
  only if it meets none (`ReceiptProtocol.ResetIsSafeExactlyWhen`).
- A charge is met exactly if and only if the item total is not zero or the charge is zero
  (`Allocation.MeetsChargeExactly`).
- Argo's `automated` policy is restored if and only if it has no null members
  (`Maintenance.AutomationIsBackExactlyWhen`), since a merge patch removes what it sets to null.
- A staging node created twice by a retried transaction is never published: the uniqueness constraint rejects the
  activation (`SnapshotPublication.DuplicateStageIsRefused`). A lone writer whose losses are all retried publishes if and
  only if nothing newer is visible and the creation committed once (`SnapshotWriter.Session.WriteSnapshot`).

## Model

| member | source | states |
|---|---|---|
| LatticePaths.BestIsUpperBound | src/home_budget_pipeline/receipt_ocr_alternatives.py:39-42 | no lattice path between two corners is worth more than the recurrence's optimum |
| LatticePaths.BestIsAttained | src/home_budget_pipeline/receipt_ocr_alternatives.py:39-42 | some path attains the optimum |
| LatticePaths.BestPathsCharacterized | src/home_budget_pipeline/receipt_ocr_alternatives.py:43-46 | the set the counts describe holds exactly the optimal paths |
| PathCounting.BestSubstructure | src/home_budget_pipeline/receipt_ocr_alternatives.py:56-60 | a path through a corner is optimal exactly when both halves are and the optima add up |
| PathCounting.CountByLastStep | src/home_budget_pipeline/receipt_ocr_alternatives.py:43-46 | the forward recurrence counts all optimal paths, each once |
| PathCounting.CountByFirstStep | src/home_budget_pipeline/receipt_ocr_alternatives.py:51-54 | so does the backward recurrence, although optima are defined forward |
| OrderedMatching.PathGivesMatching | src/home_budget_pipeline/receipt_ocr_alternatives.py:30-31 | the pairs of a path are a monotone matching of the same weight |
| OrderedMatching.MatchingGivesPath | src/home_budget_pipeline/receipt_ocr_alternatives.py:30-31 | every monotone matching has a path of its weight with no other weighted pairs |
| OrderedMatching.MaximumIsBest | src/home_budget_pipeline/receipt_ocr_alternatives.py:58-60 | maximum-weight matchings are those whose weight is the last table entry |
| OrderedMatching.CountThroughEdge | src/home_budget_pipeline/receipt_ocr_alternatives.py:55-60 | optimal paths through an edge number prefixes times suffixes, or none off the best routes |
| OrderedMatching.FilterIsSharing | src/home_budget_pipeline/receipt_ocr_alternatives.py:55-60 | an edge passes the count filter exactly when every maximum-weight matching contains it |
| OrderedMatching.SharedPairsIncrease | src/home_budget_pipeline/receipt_ocr_alternatives.py:14-19 | shared pairs never cross and never share a row or column |
| RowMatcher.FillForward | src/home_budget_pipeline/receipt_ocr_alternatives.py:33-46 | the forward tables hold the optimum and number of optimal paths of every prefix |
| RowMatcher.FillBackward | src/home_budget_pipeline/receipt_ocr_alternatives.py:34-54 | the backward tables hold those of every suffix |
| RowMatcher.TablesAgree | src/home_budget_pipeline/receipt_ocr_alternatives.py:33-60 | the last entry of the forward tables and the first entry of the backward tables are the same optimum and the same count |
| RowMatcher.UniqueOrderedMatches | src/home_budget_pipeline/receipt_ocr_alternatives.py:30-60 | the result has exactly the weighted pairs that every maximum-weight monotone matching contains |
| OcrAlternatives.LinksIncrease | src/home_budget_pipeline/receipt_ocr_alternatives.py:79-82 | the composed map from items to pass lines is strictly increasing and one-to-one |
| OcrAlternatives.Alternatives | src/home_budget_pipeline/receipt_ocr_alternatives.py:63-102 | every item's readings have distinct texts, its own name first, and hold exactly the linked, described lines of successful passes as sources, none twice |
| ReferenceMatching.CertificateIsMaximum | src/home_budget_pipeline/model_evaluation.py:146-148 | a closed set of rows that traps all failed references proves a matching maximum |
| ReferenceMatching.Matcher.Assign | src/home_budget_pipeline/model_evaluation.py:149-157 | failure changes nothing and closes the rows seen; success matches one more reference, unmatches none and leaves every dead end alone |
| ReferenceMatching.Matcher.MatchAll | src/home_budget_pipeline/model_evaluation.py:148-160 | at the end every prefix of the references is matched as completely as any matching could |
| ReferenceMatching.CertificateAfterSuccess | src/home_budget_pipeline/model_evaluation.py:154-156 | an augmentation keeps the certificate for one more reference |
| ReferenceMatching.CertificateAfterFailure | src/home_budget_pipeline/model_evaluation.py:157-160 | a failed search extends the certificate by the rows it saw |
| ReferenceScore.LabelledFirstPermutes | src/home_budget_pipeline/model_evaluation.py:137-138 | putting labelled references first loses and adds none |
| ReferenceScore.LabelledFirstIsStable | src/home_budget_pipeline/model_evaluation.py:137-138 | labelled and other references keep their own order |
| ReferenceScore.BuildEdges | src/home_budget_pipeline/model_evaluation.py:139-145 | the edges of a reference are exactly the rows it accepts |
| ReferenceScore.ListsPartition | src/home_budget_pipeline/model_evaluation.py:161-169 | listed pairs, missing references and unexpected rows hold every reference and every row exactly once |
| ReferenceScore.Score | src/home_budget_pipeline/model_evaluation.py:126-180 | matched lists each pair of the pairing once, in the order of the references; missing and unexpected list the other references and rows in order; every pair fits, and no one-to-one pairing matches more references or more labelled references |
| WriteBatches.Batch | src/home_budget_pipeline/receipt_graph.py:475-490 | batches concatenate to the input, are never empty, keep both bounds unless one row is alone, and close only before a row that does not fit |
| WriteBatches.GreedyIsUnique | src/home_budget_pipeline/receipt_graph.py:475-490 | those rules determine the batches |
| GraphProjection.BuildMembers | src/home_budget_pipeline/receipt_graph.py:500-523 | one membership per node with its position, its outgoing edges in order and its last analysed item |
| GraphProjection.OutgoingExactly | src/home_budget_pipeline/receipt_graph.py:508-522 | the outgoing edges are those that start at the node, in their order |
| GraphProjection.AnalysedItemIsLast | src/home_budget_pipeline/receipt_graph.py:509-511 | the analysed item is the target of the last such edge |
| GraphProjection.MergeTwice | src/home_budget_pipeline/receipt_graph.py:525-531 | merging the same memberships again changes nothing |
| GraphProjection.ReadingIsMembers | src/home_budget_pipeline/receipt_graph.py:512-531 | reading the stored memberships in ordinal order returns the graph's nodes |
| GraphProjection.EdgesReadBack | src/home_budget_pipeline/receipt_graph.py:502-519 | every edge comes back exactly as often as the graph has it if and only if all edges start at nodes |
| SnapshotStore.Plan | src/home_budget_pipeline/receipt_graph.py:493-536 | the stage is created first, every membership follows its entity, the membership batches together hold the projection in order, then come all edges, each once, in single-type batches of at most 1000 that keep each type's order, and the observation time last; a graph without receipt node fails exactly there |
| SnapshotStore.GroupByKind | src/home_budget_pipeline/receipt_graph.py:502-508 | the types are distinct, and each has exactly its edges in their order |
| SnapshotPublication.StepKeepsInv | src/home_budget_pipeline/receipt_graph.py:555-609 | every step of every writer, committed, failed, or committed without acknowledgement, keeps the publication invariant |
| SnapshotPublication.PublicationIsSafe | src/home_budget_pipeline/receipt_graph.py:555-609 | in every run every visible snapshot is one complete projection, a receipt has at most one, and nothing visible is lost or replaced by an earlier observation |
| SnapshotPublication.ActivationIsIdempotent | src/home_budget_pipeline/receipt_graph.py:555-571 | in every run of concurrent writers, at every moment after an activation published, a retry leaves the store as it is and answers true exactly when no other writer of the receipt has published since |
| SnapshotPublication.SwappedStays | src/home_budget_pipeline/receipt_graph.py:560-562 | every step of any writer leaves a published stage empty, and ends the publication exactly when it publishes another snapshot of the receipt |
| SnapshotPublication.RetiredStays | src/home_budget_pipeline/receipt_graph.py:600-609 | a writer that cleans up its stage, or has stopped, leaves its retired predecessor in the store for the rest of the run, unchanged |
| SnapshotPublication.FinishedStageActivates | src/home_budget_pipeline/receipt_graph.py:563-571 | a finished stage is published exactly when nothing newer is visible, and is then the only snapshot |
| SnapshotPublication.DuplicateStageIsRefused | src/home_budget_pipeline/receipt_graph.py:569-571 | a stage that a retry created twice is never published |
| SnapshotPublication.CleanupSparesVisible | src/home_budget_pipeline/receipt_graph.py:574-581 | cleanup leaves every visible snapshot and its memberships as they are |
| SnapshotWriter.Session.Activate | src/home_budget_pipeline/receipt_graph.py:555-571 | the statements of the activation transaction have the effect the protocol gives it, with a stage record that exists |
| SnapshotWriter.Session.WriteSnapshot | src/home_budget_pipeline/receipt_graph.py:584-609 | the answer is none if a transaction was given up; else false exactly when something newer was visible; else true if the creation committed once, and none if it committed twice. After true this complete projection has taken the place of what was visible for the receipt, after false nothing visible has changed, and when every loss is retried nothing stays hidden; visible snapshots stay complete and never go back in time |
| TaskQueue.StepKeepsInv | src/home_budget_pipeline/model_collaboration_queue.py:68-114 | every step of dispatchers, workers and broker, connections lost together or apart, keeps the queue invariant and rewrites no input or result |
| TaskQueue.RunIsWriteOnce | src/home_budget_pipeline/model_collaboration_queue.py:68-76 | in every run inputs and results are written once, also by a worker whose delivery was requeued |
| TaskQueue.HandlerStartsAtMostTwice | src/home_budget_pipeline/model_collaboration_queue.py:92-101 | in every run with crashes, lost connections and duplicates a task's handler starts at most twice |
| TaskQueue.NoPublishedTaskIsLost | src/home_budget_pipeline/model_collaboration_queue.py:225-253 | in every run a published task has its result, or a queued message or a worker still at it, unless its last orphaned worker stopped |
| TaskQueue.LostExactlyAt | src/home_budget_pipeline/model_collaboration_queue.py:85-98 | a step loses a task exactly when it stops the last, orphaned, worker at a task without result |
| TaskQueue.LostExactlyWhen | src/home_budget_pipeline/model_collaboration_queue.py:225-253 | in every run a task is lost at a moment exactly when such a step came before and nothing has revived it since |
| TaskQueue.JointLossLosesNothing | src/home_budget_pipeline/model_collaboration_queue.py:225-253 | in every run without a broker connection failing alone a published task is settled, queued or worked on |
| TaskQueue.RoundPersistsBeforePublishing | src/home_budget_pipeline/model_collaboration_queue.py:143-151 | when a round starts publishing all its tasks are stored with its inputs |
| TaskQueue.ResultsAreReturned | src/home_budget_pipeline/model_collaboration_queue.py:102-114 | in every run a stored result is one that a handler of this very task returned or failed with, or an error of expiry or exhausted retries |
| TaskQueue.NothingIsRejected | src/home_budget_pipeline/model_collaboration_queue.py:88-89 | no notification of a dispatched task is ever rejected as unknown or misrouted |
| TaskQueue.SeparateLossLosesTask | src/home_budget_pipeline/model_collaboration_queue.py:85-86 | a concrete run of the protocol in which losing broker connection and worker at different times loses a task |
| TaskDispatch.ExecutionIsProtocol | src/home_budget_pipeline/model_collaboration_queue.py:83-114 | one undisturbed execution is a run of the protocol, including expiry, exhausted retries and handler failure |
| TaskDispatch.CollectedIsFinal | src/home_budget_pipeline/model_collaboration_queue.py:158-168 | a collected result is the same in every later state of the queue |
| TaskDispatch.Dispatcher.Collect | src/home_budget_pipeline/model_collaboration_queue.py:156-168 | the polling loop gives one entry per task, which is a timeout exactly if the task had no result at the last poll, and it ends early only when all results are stored |
| TaskDispatch.Dispatcher.Add | src/home_budget_pipeline/model_collaboration_queue.py:68-76 | an existing task is kept, and other inputs for its identity are refused |
| TaskDispatch.Dispatcher.Execute | src/home_budget_pipeline/model_collaboration_queue.py:83-114 | a stored result stays; otherwise the attempt counts, and what is stored is what the handler returned in time, the type of its failure, or the error of expiry, lateness or exhausted retries; when each answer is given and when the handler starts |
| TaskDispatch.Dispatcher.Dispatch | src/home_budget_pipeline/model_collaboration_queue.py:135-151 | either every task is stored before the first notification and all are notified in order, or none is notified; stored tasks stay |
| ReceiptProtocol.StepKeepsInv | src/home_budget_pipeline/receipts/backlog_ingest.py:273-368 | every step of every worker, crash, lost session or reset keeps the ingest invariant: all OCR runs, done or about to be done, were paid for by committed attempts |
| ReceiptProtocol.CompletionIsFinal | src/home_budget_pipeline/receipts/backlog_ingest.py:304-308 | without refresh a completed receipt never leaves completion |
| ReceiptProtocol.AttemptsAreBounded | src/home_budget_pipeline/receipts/backlog_ingest.py:309-321 | without refresh, for limits from one on, attempts stay within the limit, and OCR runs since the last reset within attempts plus the workers that had lost their session before OCR at that reset; within the limit if no reset met one |
| ReceiptProtocol.StrayExceedsLimit | src/home_budget_pipeline/receipts/backlog_ingest.py:316-326 | a run in which a worker without session runs OCR after a reset, once more than the limit allows |
| ReceiptProtocol.ResetIsSafeExactlyWhen | src/home_budget_pipeline/receipts/backlog_ingest.py:110-167 | with as many workers waiting as the limit allows attempts, OCR runs until the next reset stay within the limit in every continuation if and only if the reset meets no such worker |
| ReceiptProtocol.RequestsAreBounded | src/home_budget_pipeline/receipts/backlog_ingest.py:274-303 | a reprocess request runs OCR at most as often as its limit and completes at most once, lost sessions included |
| ReceiptProtocol.ReplaysAreSkipped | src/home_budget_pipeline/receipts/backlog_ingest.py:292-294 | after completion every replay of a request is skipped |
| ReceiptProtocol.ZeroLimitStillRunsOnce | src/home_budget_pipeline/receipts/backlog_ingest.py:309-321 | a run that shows why the attempt bound needs a positive limit |
| ReceiptProcessor.ProcessedIsProtocol | src/home_budget_pipeline/receipts/backlog_ingest.py:254-368 | an undisturbed call is a protocol run with the same rows and OCR count |
| ReceiptProcessor.Connection.ProcessCandidate | src/home_budget_pipeline/receipts/backlog_ingest.py:254-368 | what one call commits and returns for every decision and every point of failure, with nothing left uncommitted; a complete extraction succeeds, another needs review |
| ReceiptRows.DecisionsMean | src/home_budget_pipeline/receipts/backlog_ingest.py:273-321 | when a receipt is worked on, and what each refusal tells |
| ReceiptProcessor.Connection.ResetForRetry | src/home_budget_pipeline/receipts/backlog_ingest.py:110-167 | exactly failed and processing receipts are reset; otherwise nothing changes |
| ReceiptProcessor.ProcessBacklog | src/home_budget_pipeline/receipts/backlog_ingest.py:424-467 | every counter counts exactly the receipts of its outcome, and together they are the discovered ones |
| ItemRows.GuardIsExact | src/home_budget_pipeline/categorization/receipt_items.py:25-34 | the counting guard objects exactly when the greedy refresh would leave a reviewed row unclaimed |
| ItemRows.GuardCounts | src/home_budget_pipeline/categorization/receipt_items.py:25-34 | the guard objects exactly when some name and amount has more reviewed rows than new items |
| ItemRows.ReuseIsMaximum | src/home_budget_pipeline/categorization/receipt_items.py:43-52 | no assignment of existing rows to equal items reuses more rows |
| ItemRows.ReviewedFirstIsStable | src/home_budget_pipeline/categorization/receipt_items.py:44-44 | reviewed rows are claimed first, and otherwise the order stays |
| ItemRefresh.UnmatchedReviewed | src/home_budget_pipeline/categorization/receipt_items.py:25-34 | the counter loop computes the guard |
| ItemRefresh.CategoryForProduct | src/home_budget_pipeline/categorization/item_rules.py:7-38 | settled categories get no decision; else the first matching active rule, then a confident product, then a confident section decides |
| ItemRefresh.ItemTable.ApplyCategory | src/home_budget_pipeline/categorization/item_rules.py:41-61 | the row gets exactly its decision's category, keeps its identity, and no other row changes |
| ItemRefresh.ItemTable.PersistItems | src/home_budget_pipeline/categorization/receipt_items.py:43-64 | afterwards the rows are exactly the items, one each; owners follow the greedy claim; categories are decided from the reused row; settled categories stay; a reviewed row is deleted exactly when the guard objects |
| Rounding.HalfUpIsNearest | src/home_budget_pipeline/instacart/orders.py:1101-1107 | half-up rounding gives the nearest cent, ties away from zero |
| Rounding.NearestIsUnique | src/home_budget_pipeline/instacart/orders.py:1101-1107 | there is only one such cent |
| Allocation.SharesAreNear | src/home_budget_pipeline/instacart/orders.py:2711-2714 | every share is within half a cent of its exact proportion, for negative lines and totals too |
| Allocation.ResidualIsBounded | src/home_budget_pipeline/instacart/orders.py:2715-2718 | the residual puts the largest of k shares at most (k-1)/2 cents off its exact proportion |
| Allocation.Allocate | src/home_budget_pipeline/instacart/orders.py:2700-2720 | with a charge and a non-zero total the amounts sum to the charge, proportional within those bounds, with the residual on the first largest amount |
| Allocation.MeetsChargeExactly | src/home_budget_pipeline/instacart/orders.py:2710-2720 | a charge is met exactly if and only if the total is not zero or the charge is |
| CategorySheets.CategoriesAddUp | src/home_budget_pipeline/instacart/orders.py:2722-2725 | per-category sums of any lines add up to all of them |
| CategorySheets.CategoryTotals | src/home_budget_pipeline/instacart/orders.py:2636-2658 | raw totals are the categories' sums, and adjusted totals add up to the charge, or to the order total where the charge is missing or zero |
| CategorySheets.ReceiptReport | src/home_budget_pipeline/instacart/orders.py:2700-2748 | every line's amount is its rounded share of the charge, or of the order total where the charge is missing or zero, with the residual on the largest; the columns are the categories' sums and add up to the subtotal, which is the charge |
| BraveCache.QueryCache.LockedLookup | src/home_budget_pipeline/brave_query_cache.py:63-88 | a stored row is returned only while valid and without refresh; otherwise the search replaces it, unless search or store failed |
| BraveCache.QueryCache.Get | src/home_budget_pipeline/brave_query_cache.py:55-96 | an unexpired remembered result is used, else an unexpired stored one unless refreshing, else the search, whose result is kept for an hour if empty and for the configured time otherwise; a result was fetched for this query and had not expired; hits and successful fetches equal completed lookups |
| BraveCache.OthersKeepValid | src/home_budget_pipeline/brave_query_cache.py:55-96 | lookups of other processes keep this cache valid |
| BraveCache.WindowsAreDisjoint | src/home_budget_pipeline/brave_query_cache.py:70-82 | windows of two fetches are disjoint when the one right after the earlier was not forced |
| BraveCache.NextIsDisjointExactlyWhen | src/home_budget_pipeline/brave_query_cache.py:70-82 | no admissible next ordinary fetch overlaps an ordinary window if and only if the last result covers the ordinary windows still open |
| BraveCache.DisjointFromNowExactlyWhen | src/home_budget_pipeline/brave_query_cache.py:70-82 | ordinary windows stay disjoint in every continuation by ordinary fetches under that condition, and only then |
| BraveCache.OrdinaryDisjointExactlyWhen | src/home_budget_pipeline/brave_query_cache.py:70-82 | whole histories: wherever a history is cut and continued by ordinary fetches, ordinary windows are disjoint, if and only if every forced fetch covered what was open when it was made |
| BraveCache.AllDisjointExactlyWhen | src/home_budget_pipeline/brave_query_cache.py:70-82 | all windows, forced ones included, are disjoint if and only if no forced fetch replaced a result that was still valid |
| BraveCache.RefreshUncovers | src/home_budget_pipeline/brave_query_cache.py:70-82 | a run in which two ordinary windows overlap |
| RoundRobin.Interleave | src/home_budget_pipeline/receipt_collaboration.py:124-131 | the grouping and popping loops end and produce the rounds until every group is empty |
| RoundRobin.OrderIsPermutation | src/home_budget_pipeline/receipt_collaboration.py:124-131 | the order is a permutation that keeps every engine's own order |
| RoundRobin.RoundsOf | src/home_budget_pipeline/receipt_collaboration.py:127-131 | after k rounds every engine has given its first min(k, size) sources |
| RoundRobin.EveryPrefixIsFair | src/home_budget_pipeline/receipt_collaboration.py:122-123 | in every prefix no engine is two sources ahead of one that has some left |
| RoundRobin.EnginesInOrder | src/home_budget_pipeline/receipt_collaboration.py:124-126 | engines take their turns in the order in which they first appear |
| SourcePacking.GreedyIsUnique | src/home_budget_pipeline/receipt_collaboration.py:132-148 | the budget determines which sources are kept |
| SourcePacking.AllKeptExactlyWhen | src/home_budget_pipeline/receipt_collaboration.py:132-148 | nothing is dropped exactly when the cost of everything fits |
| SourcePacking.ObservationsAreSources | src/home_budget_pipeline/receipt_collaboration.py:135-147 | readings have distinct texts and hold every kept source exactly once |
| SourcePacking.PackingIsSound | src/home_budget_pipeline/receipt_collaboration.py:119-151 | no source twice, distinct texts shared by all observations of a reading, cost within the budget if and only if it is not negative, and included equals available exactly when everything fits |
| SourcePacking.Pack | src/home_budget_pipeline/receipt_collaboration.py:119-151 | the loops compute that packing and its coverage report |
| Recommendation.CheckCitations | src/home_budget_pipeline/receipt_collaboration.py:466-476 | the loop reports the first missing citation or title mismatch, review by review |
| Recommendation.Reconcile | src/home_budget_pipeline/receipt_collaboration.py:447-480 | the reasons are those that apply, in order, and the choice is the only one made |
| Recommendation.ReasonsAreExact | src/home_budget_pipeline/receipt_collaboration.py:453-477 | a reason is given exactly when it applies, and once |
| Recommendation.ReasonsMean | src/home_budget_pipeline/receipt_collaboration.py:453-470 | what each reason says about reviews, evidence, families and arithmetic |
| Recommendation.RecommendationIsCited | src/home_budget_pipeline/receipt_collaboration.py:447-480 | every review behind a recommendation chose the product, cites it and one of its supporting observations, and names its title |
| Recommendation.RecommendedExactlyWhen | src/home_budget_pipeline/receipt_collaboration.py:447-480 | a match is recommended exactly when complete, unanimous, cited, threshold-passing evidence of enough families supports it |
| Recommendation.FamiliesBackTheProduct | src/home_budget_pipeline/receipt_collaboration.py:451-457 | every counted family has a review that chose and cites the recommended product |
| Recommendation.NoVoteInflation | src/home_budget_pipeline/receipt_collaboration.py:449-457 | reviews added anywhere by families that already selected a product never turn review into recommended |
| ErrorRecovery.ClassifyDiscovery | src/home_budget_pipeline/receipt_collaboration.py:483-492 | errors are recovered all together or not at all, and exactly when each is recoverable, verified, arithmetic passes and the match is recommendable without them |
| ErrorRecovery.Pool | src/home_budget_pipeline/model_collaboration_queue.py:306-321 | one most confident result per product, and a conflict error exactly for products with two titles, whatever the order of arrival |
| ErrorRecovery.ClassifyQueued | src/home_budget_pipeline/model_collaboration_queue.py:355-364 | the queued path is all or nothing too, exactly when all errors are warnings and the reviews are complete |
| ErrorRecovery.DecideQueued | src/home_budget_pipeline/model_collaboration_queue.py:319-369 | recommended exactly when all faults are planned warnings, no more than 32 products are eligible, evidence and reviews are complete, the arithmetic checks pass, and reviews of enough families agree on an eligible product that each cites; its title is then undisputed, and the faults are exactly the reported ones, conflicting titles and truncation |
| ProductEvidence.JoinSpans | src/home_budget_pipeline/product_enrichment.py:287-301 | the pass over adjacent tokens joins exactly the pairs that begin a span of the page while one of their tokens lacks an explanation |
| ProductEvidence.ExplainIsHeaviest | src/home_budget_pipeline/product_enrichment.py:246-286 | a token alone is explained exactly when some way applies, by one that no other that applies outweighs |
| ProductEvidence.JoiningExplains | src/home_budget_pipeline/product_enrichment.py:287-301 | joining explains exactly the unexplained tokens of such pairs, and no token loses its explanation |
| ProductEvidence.DemoteNegations | src/home_budget_pipeline/product_enrichment.py:302-306 | exactly the negations are demoted that the page does not say before the next word |
| ProductEvidence.MatchedExactlyWhen | src/home_budget_pipeline/product_enrichment.py:243-313 | every explanation weighs what its kind does, and all tokens are explained exactly when each is explained alone or in a span, no negation is demoted and every percentage is on the page |
| ProductEvidence.ScoredExactlyWhen | src/home_budget_pipeline/product_enrichment.py:314-332 | confidence is at least 0.85 exactly when product page, no code conflict, no unmatched token, and two tokens or an exact code with one |
| ProductEvidence.CandidateEvidence | src/home_budget_pipeline/product_enrichment.py:212-332 | the confidence for every case; it reaches 0.85 exactly when the page shows the barcode, or accounts for every token under those conditions; wrong retailers and discounts give zero |
| ProductEvidence.DifferencesDecide | src/home_budget_pipeline/product_enrichment.py:362-366 | the list of differing letters decides whether two words differ in one confusable glyph |
| ProductEvidence.Rescore | src/home_budget_pipeline/product_enrichment.py:339-375 | only a single unmatched token is reconsidered, and it is explained exactly by the qualifying observations, which are all cited |
| ProductEvidence.ScoreAndRescore | src/home_budget_pipeline/product_enrichment.py:212-375 | after re-scoring 0.85 still implies that every token is explained, with the exact condition |
| WorkerLogs.SortedIsStable | src/home_budget_pipeline/receipt_progress.py:25-25 | sorting the records by time is a stable permutation |
| WorkerLogs.WorkerObservations | src/home_budget_pipeline/receipt_progress.py:11-45 | the table of active requests gives what looking back through the records gives |
| WorkerLogs.ObservationsAreCredited | src/home_budget_pipeline/receipt_progress.py:33-44 | observations are in time order, about known requests, and a heartbeat is credited only to the request last marked active at that host and receipt |
| WorkerLogs.NothingIsMissed | src/home_budget_pipeline/receipt_progress.py:33-44 | every status of a known request is observed, and every heartbeat of a place with an active request |
| Progress.Summarize | src/home_budget_pipeline/receipt_progress.py:79-96 | the counts are those of the buckets and add up to the total |
| Progress.BucketsAreExact | src/home_budget_pipeline/receipt_progress.py:82-95 | which statuses fall into which bucket, and that time alone only turns running into unknown |
| Progress.SilenceIsUnknown | src/home_budget_pipeline/receipt_progress.py:60-63 | without complete observations a request queued long ago that nobody reported on is unknown |
| Progress.ApplyObservations | src/home_budget_pipeline/receipt_progress.py:53-59 | one pass leaves every request at its latest observation that is not older than its row |
| Progress.Report.ApplyWorkers | src/home_budget_pipeline/receipt_progress.py:48-76 | the counts add up to the total (when there are requests or nothing was counted), and a request with durable evidence counts as completed whatever workers reported |
| Progress.Report.Reconcile | src/home_budget_pipeline/receipt_progress.py:184-221 | the counts keep their sum, what an empty broker cannot hold is unknown, and every state is characterised; complete means that nothing is open and completions do not exceed durable evidence |
| Progress.Report.Finish | src/home_budget_pipeline/receipt_progress.py:48-221 | a complete batch has durable evidence for every one of its requests |
| GpuSampling.CoverageIsBounded | src/home_budget_pipeline/gpu_sampling.py:53-58 | sampled time is at most the request's and one interval per sample, and active time at most sampled time |
| GpuSampling.DenseSamplesCover | src/home_budget_pipeline/gpu_sampling.py:56-58 | samples at least once an interval cover everything from the first on |
| GpuSampling.SparseSamplesCover | src/home_budget_pipeline/gpu_sampling.py:56-58 | samples at least an interval apart cover one interval each |
| GpuSampling.WorkIsAtLeast | src/home_budget_pipeline/gpu_sampling.py:61-61 | the weighted sum is at least any lower bound of the readings times the sampled time |
| GpuSampling.Sampler.Summarize | src/home_budget_pipeline/gpu_sampling.py:53-64 | those bounds, an average between any bounds of the readings, and the observed maximum |
| GpuSampling.Measure | src/home_budget_pipeline/gpu_sampling.py:24-64 | over a whole request every attempt is counted as a sample or an error, sampled time is at most the request's and one interval per sample, and average, maximum and active time are those of the readings |
| MergePatches.MergedValue | scripts/production_rebuild.py:65-66 | what a merge patch sets can be read back, merged into what was there |
| MergePatches.SparedValue | scripts/production_rebuild.py:65-66 | what a merge patch does not mention keeps its value |
| MergePatches.StrippedExactlyWhen | scripts/production_rebuild.py:121-123 | writing a removed value back restores it exactly when it has no null members |
| ControlPlane.NoWritersStays | scripts/production_rebuild.py:148-150 | once nothing can write, no controller brings a writer back |
| Maintenance.CalmMove | scripts/production_rebuild.py:130-147 | no controller undoes any finished part of the shutdown |
| Maintenance.AutomationIsBackExactlyWhen | scripts/production_rebuild.py:121-123 | the synchronisation policy is back exactly when it had no null members |
| Maintenance.Operator.Resume | scripts/production_rebuild.py:113-124 | it succeeds exactly when all commands work, in order, with the controllers acting in between; then the recorded settings are back if no synchronisation ran or could start at the beginning, replica counts that an autoscaler owns excepted |
| Maintenance.ResumeCommands | scripts/production_rebuild.py:113-124 | one command per recorded setting, in order, and the application last |
| Maintenance.ResumedExactlyWhen | scripts/production_rebuild.py:113-124 | every run of working resume commands restores the settings, replica counts that an autoscaler owns excepted, if and only if no synchronisation runs or can start as resuming begins |
| Maintenance.RunningSyncOverwrites | scripts/production_rebuild.py:127-163 | a run in which a synchronisation from before the first patch leaves a resumed deployment with other replicas |
| Maintenance.Operator.Execute | scripts/production_rebuild.py:127-163 | with a failure at any step and controllers acting in between, the rebuild is sent exactly when every call of the shutdown works, starts only while nothing can write, and is atomic; an acknowledged rebuild always resumes, another exit exactly when the expenses are read to be there; resuming ends well exactly when all commands work, and then has the recorded settings back if detaching had worked, or if no synchronisation ran or could start as resuming began; replica counts that an autoscaler owns are excepted |
| Maintenance.Operator.Shutdown | scripts/production_rebuild.py:130-147 | every writer is stopped exactly when all calls work, looks included |
| Maintenance.UneventfulRun | scripts/production_rebuild.py:127-163 | a window without incident completes, with the deployment back at its replicas |
| Maintenance.Snapshot | scripts/production_rebuild.py:80-110 | what is refused, and otherwise that every possible writer is listed with its settings |
| Maintenance.Run | scripts/production_rebuild.py:166-203 | it does nothing when it refuses, and else goes as far as the calls of the shutdown work; undisturbed and with a policy free of null members, a run that says it resumed has exactly the settings recorded at its start |

## Left out

- RowMatcher.UniqueOrderedMatches: compares exactly where the source accepts differences below `1e-8`; near-ties of floats are not modelled.
- OcrAlternatives.Alternatives: the metadata copied into a source (engine, geometry, confidence) and items that share an identifier.
- ReferenceScore.Score: summary fields, category checks and arithmetic checks, which are independent comparisons; unexpected rows are reported only for complete references.
- GraphProjection.BuildMembers: serialisation and the 256-character label cut; relationships between entities, which only legacy readers use.
- SnapshotPublication.PublicationIsSafe: the legacy atomic writer `write`, and what the relationships between entities hold after publication, which only legacy readers use.
- TaskDispatch.Dispatcher.Execute: provenance, and the reply queue's expiry, of which only the acknowledgement is modelled.
- TaskDispatch.Dispatcher.Collect: reply messages only wake the loop; which of them arrive is a given schedule.
- ReceiptProtocol.AttemptsAreBounded: runs with refresh, whose attempts the limit of a request bounds instead.
- ReceiptProcessor.ProcessBacklog: discovery and the backlog lock; results of the single receipts are given.
- ItemRefresh.CategoryForProduct: normalisation of names; whether a rule matches is a given function.
- CategorySheets.ReceiptReport: the spreadsheet around the numbers, and parsing money from text.
- Rounding.HalfUpIsNearest: the context precision of decimal division.
- BraveCache.QueryCache.Get: a lookup's steps before and after the lock are one step of the process that makes it.
- SourcePacking.Pack: `used` adds the sizes of parts, as the source does; separators that joining adds are not counted.
- Recommendation.Reconcile: titles, URLs and confidence copied into the result.
- ErrorRecovery.DecideQueued: the ranking of eligible products by confidence and identifier; the result holds for every ranking.
- ProductEvidence.Rescore: rounding to four decimals, and the words recorded beside a resolved glyph; the similarity that qualifies an observation is given.
- ProductEvidence.CandidateEvidence: how a receipt text is split into tokens, and the single text comparisons, which are given functions of the page; their order, weights and combination are modelled.
- Progress.Report.Reconcile: formatting of times, and the queue counters beyond work and retry.
- GpuSampling.Sampler.Summarize: rounding of the reported numbers.
- Maintenance.Operator.Execute: the bootstrap SQL itself, of which only its atomicity counts; an autoscaler that was already paused with other replicas when the script began.
- Maintenance.Snapshot: that the source stops with an error when an intermediate field is null instead of absent.
- Browser scraping, receipt parsing, image rendering, model and search clients, telemetry, command lines and deployment scripts.
- `qwen_retry_profile`, the date expressions, keyword tables and required-field checks, which would add only easy members.
