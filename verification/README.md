# Litigation platform: delivery, audit and measurement, verified

A Dafny model of four parts of the platform, with proofs about all inputs, all runs and all reachable
states. `dafny verify dfyconfig.toml` checks everything.

**OCR delivery.** A lease-aware queue (`OcrQueue`, `QueueRuns`), an append-only status timeline with
replay-safe writes and a retry outbox (`JobStates`, `RetryRules`, `OcrStore`, `StoreRuns`), the judgement
of worker outcomes (`WorkerOutcome`), and the coordinator turn that ties them together (`Ports`,
`TurnEffects`, `Coordinator`). Every queue and store call of a turn can fail before or after it takes effect, with the
queue's own errors or foreign ones; the worker may return anything or throw; leases may end in the middle
of a turn. `Delivery` states the protocol as a transition system: the calls a turn or a client may make,
each under the condition that the coordinator's code establishes at that point. The imperative turn is
proved to make only such calls, so what is proved about runs of calls holds at every point inside every
turn. It is also proved against `TurnEffects`, which states world and report of a turn as a function of its
inputs; `TurnOutcomes` and `SmoothTurns` prove which end a turn may or must reach, told by the worker's report
and the retry policy alone. `CoordinatorRuns` adds what holds over histories of whole turns. `QueueLeases` and
`StoreWrites` say what callers of the queue and the store get, `ReviewSummaries` covers the two summaries that
read the store.

**The audited case box.** Records with redundant indexes (`CaseTables`), per-matter hash chains with an
independently written anchor (`AuditChain`), and fifteen writes that plan their records and events first
(`CaseBoxPlans`) and then commit them (`CaseBox`). `CaseBoxState` holds the ledger invariant: indexes
agree, every record has its matter's tenant, every chain verifies and is anchored, and the latest event
about every record carries the hash of exactly that record. `CaseBoxInvariant` adds the rules across
records (docket entries and deadlines in bijection, the supersession graph, unique confirmed markers,
party ids) and shows that every write keeps all of it. `CaseBoxEffects` says for each write when it is accepted,
which fields are stored and what its event tells, without reference to the plans. `CaseBoxHistory` follows
single records through all runs. `Supersession`, `MatterEdits` and `MatterSummary` hold the loops and what they compute.

**Canonical JSON.** `CanonicalJson` prints values as the source does; `CanonicalJsonReader` reads the text
back, with string quoting as in section 7 of RFC 8259, and so shows when two texts are equal.

**Measurement and paging.** `EditDistance`, `OrderMetric` and `Verdict` cover the accuracy metrics, the
failure tallies and the ranking, `Aggregation` the report the tallies are drawn from. `SeekPaging` and
`SortKeys` cover the two styles of seek pagination, their comparators and the loop that follows cursors;
`PagedLists`, `OcrLists` and `CaseLists` apply them to the five paged lists of the two stores, standing still
or being written, and `ListedRows` says which records a page shows, and in what order.

Class methods are proved against functions on plain values (`...Step`, `Plan...`, `Put`, `Appended`), and
the laws are proved about those functions.

## What is assumed

- Queue receipts are new when they are minted, and transport ids are new where first deliveries are
  ordered; both are random in the source. Turns do not interleave, and the queue and the store are durable.
- Clients enqueue a job as it was created.
- Claims about retry counts, about one source of results and about the end of a turn without faults need a
  coordinator clock that advances: instants that no queue edge of the job carries yet. Claims about stranded
  jobs need it for the instant a turn starts with only. Everything else holds for any clock.
- JSON schemas, the time zone list, marker time order, text trimming, SHA-256 and the state hash are
  parameters; the head-anchor theorem needs an injective event hash, nothing else does. Generated ids are
  not empty.
- Numbers in JSON are given by their decimal text, so the two zeros are one value. Metrics use exact real
  arithmetic on token sequences. The name order that breaks ranking ties is any strict total order.
- Strings are compared by UTF-16 code units, and hold no lone surrogates where they are sorted. Creation
  times of facts and matters are read off their bodies. Map iteration order is any order that lists every
  key once. Engine names are not names of inherited object properties.
- A record stands for its own canonical text: where the source compares canonical texts of submissions,
  moves, results and facts, the model compares records.

## Where code and intention part

- A failure coded `constructor` finds a property inherited from the object prototype and turns its tally
  into text, so nothing adds up any more (`Verdict.ConstructorCodeBreaksTheTally`); conservation holds
  exactly when no fixture has that code.
- When a page id is listed twice, the outcome validator goes by the last listing and the store by the
  first (`WorkerOutcome.ValidatorPartsFromStore`); the two accept the same results exactly when the first
  and the last listing of every page id carry one number (`WorkerOutcome.ValidatorMatchesStoreIff`). The two
  review summaries part as well (`ReviewSummaries.ListedTwiceDisagrees`); they agree exactly when every page
  with a result is listed once.
- `[undefined]` and `[]` have one canonical text (`CanonicalJsonReader.TextsCollide`).
- The retry validator lets a transient failure with budget left be dead-lettered, and refuses the dead
  letter the classifier chooses when no failure is given (`RetryRules.DeadLetterEdge`).
- A worker's report that leaves out the step into processing passes the outcome contract, but the store refuses
  its only move and the job stays at `claimed` (`SmoothTurns.SkippedStepIsRefused`); without a fault a report of
  new moves that includes the step is persisted in full. A failed report is classified exactly when the attempt
  is within the budget or no failed result carries a failure (`SmoothTurns.OverspentIsNotPersisted`,
  `OtherFailureGivesUp`).
- A comment in the coordinator (`coordinator.ts:257-264`) says that after a failed first write the next turn
  reconciles. It does not. A job whose worker throws once, or whose outcome is turned down, stays at
  `claimed` (`CoordinatorRuns.StrandNewJob`, `FailedStartStrands`), because the next turn writes the same move
  with a new instant, which neither replays nor fits: a turn gets past its first write exactly when the job is
  new or back in the queue (`ClaimMoveAcceptedIff`, `OpensIff`). Over every later history the job keeps its
  timeline and its results and is never finished (`StrandedForever`, `FailedStartNeverFinishes`), though it is
  not lost either. So eventual completion is not claimed.

## Model

| member | source | states |
|---|---|---|
| `JobStates.ValidateTransitionSequence` | docs/contracts/src/transitions.ts:103-139 | accepts exactly the non-empty sequences in which every move follows from the one before it; otherwise names the first offending move and why |
| `JobStates.ChainGrows` | docs/contracts/src/transitions.ts:103-139 | validating a whole timeline again after an append is the same as checking the last edge |
| `JobStates.TerminalFreezes` | docs/contracts/src/transitions.ts:34-45 | a finished timeline accepts no further move by any actor |
| `JobStates.TerminalIsLast` | docs/contracts/src/transitions.ts:121-127 | in a legal timeline a terminal state is only ever the last one |
| `JobStates.NextMoves` | docs/contracts/src/transitions.ts:34-70 | a timeline that has begun goes on by the listed moves of its last state, at the listed hands, and by no others |
| `JobStates.CoordinatorLanguage` | docs/contracts/src/transitions.ts:54-70 | the timelines the coordinator's edges can form are exactly k full failed rounds followed by a prefix of one last round, both directions, with k the derived retry count |
| `RetryRules.RetryEdgeIffClassified` | docs/contracts/src/retryPolicy.ts:44-86 | a move from failed back to queued passes the validator exactly when the classifier says retry |
| `RetryRules.DeadLetterEdge` | docs/contracts/src/retry-rules.ts:39-94 | a dead-letter move passes exactly when a failure is given and the counters are sane, so a transient failure with budget left may be dead-lettered, and the classifier's dead letter for a missing failure is refused |
| `RetryRules.RetryStaysInBudget` | docs/contracts/src/retry-rules.ts:101-115 | retry is decided exactly for transient failures with sane counters that stay sane for the next attempt |
| `OcrQueue.InMemoryOcrQueue.Enqueue` | services/ocr-worker/src/inMemoryQueue.ts:140-162 | adds at the tail, answers an equal submission of a queued job with the queued record, refuses a different one |
| `OcrQueue.InMemoryOcrQueue.FindActiveBySubmissionJobId` | services/ocr-worker/src/inMemoryQueue.ts:337-346 | the first queued job of a job id, waiting before leased |
| `OcrQueue.InMemoryOcrQueue.SweepExpired` | services/ocr-worker/src/inMemoryQueue.ts:323-331 | exactly the expired leases go back, in front, the latest claim foremost; the others stay in order |
| `OcrQueue.InMemoryOcrQueue.ClaimNext` | services/ocr-worker/src/inMemoryQueue.ts:168-193 | sweeps, leases the head under a minted receipt until the lease length from now, or reports an empty queue |
| `OcrQueue.InMemoryOcrQueue.LookupOrThrow` | services/ocr-worker/src/inMemoryQueue.ts:270-316 | the live record of a claim, or the source's error for an expired, foreign, stale or unknown receipt |
| `OcrQueue.InMemoryOcrQueue.RenewClaim` | services/ocr-worker/src/inMemoryQueue.ts:199-206 | extends the lease of a live claim and nothing else |
| `OcrQueue.InMemoryOcrQueue.CompleteClaim` | services/ocr-worker/src/inMemoryQueue.ts:212-216 | removes the record of a live claim and nothing else |
| `OcrQueue.InMemoryOcrQueue.RequeueClaim` | services/ocr-worker/src/inMemoryQueue.ts:222-229 | puts the job of a live claim at the head of the waiting list |
| `OcrQueue.InMemoryOcrQueue.Close` | services/ocr-worker/src/inMemoryQueue.ts:235-238 | empties both stores, keeps the receipts on file |
| `QueueRuns.RunKeepsQueue` | services/ocr-worker/src/inMemoryQueue.ts:115-134 | over every run there is one job per job id across waiting and leased, one record per receipt, and every receipt is on file |
| `QueueRuns.OnlyCompleteRemoves` | services/ocr-worker/src/inMemoryQueue.ts:212-238 | no call takes a job out of the queue except completing its own claim or closing |
| `QueueRuns.CompleteKeeps` | services/ocr-worker/src/inMemoryQueue.ts:212-216 | completing removes exactly the claimed job; a refused completion changes nothing |
| `QueueRuns.RequeueKeeps` | services/ocr-worker/src/inMemoryQueue.ts:222-229 | requeueing loses and duplicates no job |
| `QueueRuns.ClaimKeeps` | services/ocr-worker/src/inMemoryQueue.ts:168-193 | sweeping and claiming lose and duplicate no job |
| `QueueRuns.EnqueueKeeps` | services/ocr-worker/src/inMemoryQueue.ts:140-162 | enqueueing adds a job exactly when none of that id is queued |
| `QueueRuns.FindsTheJob` | services/ocr-worker/src/inMemoryQueue.ts:337-346 | looking a job up by id finds exactly the queued job of that id |
| `QueueRuns.SpentReceiptNeverResolves` | services/ocr-worker/src/inMemoryQueue.ts:270-316 | a receipt that has left the active map never renews, completes or requeues anything again, after any further calls |
| `QueueRuns.ReceiptIsSpent` | services/ocr-worker/src/inMemoryQueue.ts:212-229 | the call that resolves a receipt spends it |
| `QueueRuns.DeliveryIsExclusive` | services/ocr-worker/src/inMemoryQueue.ts:168-193 | a job is delivered only when no lease on it is running; every older receipt for it is spent and the new claim is the only one |
| `QueueLeases.DeliveryLasts` | services/ocr-worker/src/inMemoryQueue.ts:168-216 | a delivered claim can be completed, requeued and renewed at every instant before its lease ends, counted from the instant of the claim, whatever is called about other claims; from that instant on it is refused as expired |
| `QueueLeases.RenewalLasts` | services/ocr-worker/src/inMemoryQueue.ts:199-206 | the same for a renewed claim, counted from the instant of the renewal |
| `QueueLeases.ExpiredIsHandedOutAgain` | services/ocr-worker/src/inMemoryQueue.ts:323-331 | once the lease has run out the next claim takes the job back in front of everything waiting, and hands it out under a new receipt unless a lease made later has run out too |
| `QueueRuns.FirstDeliveriesInOrder` | services/ocr-worker/src/inMemoryQueue.ts:222-229 | at any point of any run re-delivered jobs stand in front and the jobs delivered so far are those that arrived first |
| `QueueRuns.FirstDeliveriesFromEmpty` | services/ocr-worker/src/inMemoryQueue.ts:140-193 | from an empty queue the first deliveries are a prefix of the arrivals |
| `OcrStore.InMemoryOcrPersistence.CreateOcrJob` | services/ocr-persistence/src/inMemoryRepo.ts:50-68 | a valid submission with a new job id gets a record, an empty timeline and no results |
| `OcrStore.InMemoryOcrPersistence.AppendOcrStatus` | services/ocr-persistence/src/inMemoryRepo.ts:70-106 | appends exactly when the extended timeline is legal, numbers the event and refreshes the cached state |
| `OcrStore.InMemoryOcrPersistence.AppendOcrStatusOnce` | services/ocr-persistence/src/inMemoryRepo.ts:108-133 | answers a move already stored with its event; otherwise appends strictly |
| `OcrStore.InMemoryOcrPersistence.SaveOcrResult` | services/ocr-persistence/src/inMemoryRepo.ts:135-204 | stores a result linked to the job and its page unless the page has one; the source's errors in the source's order |
| `OcrStore.InMemoryOcrPersistence.SaveOcrResultOnce` | services/ocr-persistence/src/inMemoryRepo.ts:206-279 | as the strict save, but the same result again is answered from the store and a different one is a conflict |
| `OcrStore.InMemoryOcrPersistence.SetOcrPendingRetry` | services/ocr-persistence/src/inMemoryRepo.ts:286-310 | stores a valid next-attempt submission; writing the same again changes nothing |
| `StoreRuns.OutboxReadsBack` | services/ocr-persistence/src/inMemoryRepo.ts:286-332 | what was put in the outbox is what is read later, whatever else is written in between; after a clear nothing is |
| `OcrStore.InMemoryOcrPersistence.ClearOcrPendingRetry` | services/ocr-persistence/src/inMemoryRepo.ts:324-332 | removes the outbox row of a known job |
| `StoreRuns.RunKeepsStore` | services/ocr-persistence/src/inMemoryRepo.ts:70-106 | over every run each timeline is legal and numbered from 1, the cached state is the last one, each page has at most one result, linked to its job |
| `StoreRuns.RunGrows` | services/ocr-persistence/src/inMemoryRepo.ts:101-103 | over every run jobs stay as submitted and timelines and results only get longer at the end |
| `StoreRuns.FinishedIsForever` | services/ocr-persistence/src/inMemoryRepo.ts:84-93 | the timeline of a finished job never changes again |
| `StoreRuns.ReplayedMoveIsIdle` | services/ocr-persistence/src/inMemoryRepo.ts:117-125 | a move accepted once is answered with its stored event ever after and nothing is written |
| `StoreRuns.SavedResultIsFinal` | services/ocr-persistence/src/inMemoryRepo.ts:260-271 | a result accepted once is answered with its record ever after; a different result for the page is refused ever after |
| `StoreWrites.AppendingAMove` | services/ocr-persistence/src/inMemoryRepo.ts:70-106 | a move is accepted exactly when it may follow the last one; it is numbered, dated and put at the end with the cached state, and nothing else changes |
| `StoreWrites.AppendingAMoveOnce` | services/ocr-persistence/src/inMemoryRepo.ts:108-133 | a move on file is answered with the first event that carries it and nothing is written; otherwise the strict append |
| `StoreWrites.SavingAResult` | services/ocr-persistence/src/inMemoryRepo.ts:135-204 | a result is stored, dated, exactly when it belongs to the job (ids, page under its submitted number, revision) and the page has none; nothing else changes |
| `StoreWrites.SavingAResultOnce` | services/ocr-persistence/src/inMemoryRepo.ts:206-279 | the very result on file is answered with its record, a different one for the page is a conflict, a foreign one an error; otherwise the strict save |
| `StoreWrites.StoredResultsBelong` | services/ocr-persistence/src/inMemoryRepo.ts:146-194 | after any calls every result on file belongs to the job it is filed under |
| `WorkerOutcome.ValidateWorkerOutcomeContract` | services/ocr-worker/src/outcomeValidation.ts:34-123 | accepts exactly the outcomes with a legal sequence that ends where it says and results bound to the job; otherwise the first offending result |
| `WorkerOutcome.BoundIsStoredIff` | services/ocr-worker/src/outcomeValidation.ts:72-110 | a result that passes the validator is stored exactly when the first and the last listing of its page carry one number, otherwise refused for that number; and the other way round |
| `WorkerOutcome.ValidatorMatchesStoreIff` | services/ocr-worker/src/outcomeValidation.ts:72-110 | the validator and the store accept the same results exactly when the first and the last listing of every page id carry one number |
| `WorkerOutcome.ValidatorMatchesStore` | services/ocr-worker/src/outcomeValidation.ts:98-110 | with page ids listed once the validator and the store accept the same results |
| `WorkerOutcome.ValidatorPartsFromStore` | services/ocr-worker/src/outcomeValidation.ts:72-73 | with a page id listed under two numbers the validator keeps the last and the store the first, so the store refuses what was let through |
| `WorkerOutcome.NormalizeForStep10C` | services/ocr-worker/src/coordinator.ts:671-725 | the worker's own moves after one leading duplicate is dropped, if they end in succeeded, partial or failed and nobody else's move is among them |
| `WorkerOutcome.WorkerTailShape` | services/ocr-worker/src/coordinator.ts:671-725 | what passes validation and normalisation has one or two moves: perhaps the step into processing, and one way out |
| `WorkerOutcome.DecideRetry` | services/ocr-worker/src/coordinator.ts:359-429 | the first retry among the failed results, else the first dead letter, else the counter fault |
| `WorkerOutcome.DecisionMeaning` | services/ocr-worker/src/coordinator.ts:359-429 | a failed attempt is retried exactly when one of its results may be, otherwise dead-lettered |
| `Delivery.NoJobIsLost` | services/ocr-worker/src/coordinator.ts:497-595 | once a job is finished, queued or in the outbox it is so after every later permitted call |
| `Delivery.AttemptCountsWrites` | services/ocr-worker/src/coordinator.ts:507-526 | the effective attempt of an unfinished job is what it was plus one for each outbox write |
| `Delivery.WritesStayInBudget` | docs/contracts/src/retryPolicy.ts:74-80 | over any run a job is retried at most its budget less its attempt times, and never after it is finished |
| `Delivery.TimelineLanguage` | services/ocr-worker/src/coordinator.ts:433-502 | the timeline of every job the coordinator drives lies in the regular language at all times |
| `Delivery.EventOnJob` | services/ocr-worker/src/coordinator.ts:188-638 | every permitted call changes a job in one of the few permitted ways or not at all |
| `Delivery.RunKeepsWorld` | services/ocr-worker/src/coordinator.ts:188-638 | over every run queue and store stay in order, queued payloads and outbox rows are the created submission with a raised attempt inside the budget, the row never behind the payload |
| `Ports.AcceptedMove` | services/ocr-persistence/src/inMemoryRepo.ts:117-133 | an accepted terminal move is the last move, replayed or not; an unrecorded one lengthens the timeline |
| `Ports.TryAppend` | services/ocr-worker/src/coordinator.ts:442-445 | one status write of a turn under any fault: permitted, recorded, and what it leaves behind |
| `Ports.TryComplete` | services/ocr-worker/src/coordinator.ts:534-549 | one acknowledgement under any fault: made only when the job is finished or its next attempt is on record |
| `Coordinator.TryRequeueAs` | services/ocr-worker/src/coordinator.ts:737-760 | hands the claim back: at the head on success, otherwise the report the queue's error calls for; the store is untouched |
| `Coordinator.TryCompleteAlreadyTerminal` | services/ocr-worker/src/coordinator.ts:762-779 | acknowledges a finished job, or reports the queue's error |
| `Coordinator.Judge` | services/ocr-worker/src/coordinator.ts:286-430 | an outcome is accepted exactly when it passes validation and normalisation and, if failed, carries a failed result and a classifiable policy |
| `Coordinator.AppendTail` | services/ocr-worker/src/coordinator.ts:441-445 | persists the worker's moves in order, stopping at the first refusal; an unfinished tail leaves the job unfinished |
| `Coordinator.SaveResults` | services/ocr-worker/src/coordinator.ts:446-451 | saves the results in order, stopping at the first refusal; only results of this outcome are added |
| `Coordinator.SettleFailure` | services/ocr-worker/src/coordinator.ts:462-602 | the coordinator's edge out of failed and all that follows: outbox row before acknowledgement, acknowledgement before enqueueing, clearing last |
| `Coordinator.RetryTail` | services/ocr-worker/src/coordinator.ts:507-586 | after a retry is reported the next attempt is queued and the job unfinished; retry count and attempt stay level |
| `Coordinator.HandOver` | services/ocr-worker/src/coordinator.ts:528-586 | acknowledge, enqueue, clear: retried exactly when the queue holds the next attempt |
| `Coordinator.RunClaim` | services/ocr-worker/src/coordinator.ts:270-638 | whatever the worker returns or throws, the turn makes permitted calls only, its report is true, and world and report are those `TurnEffects` states, whose ends the rows on `TurnOutcomes` and `SmoothTurns` pin |
| `Coordinator.ProcessOneOcrQueueClaim` | services/ocr-worker/src/coordinator.ts:188-638 | a whole turn under any faults is a run of permitted calls with the world and the report `TurnEffects` states; the worker ran on the outbox row if there was one; reports mean what they say, with exact counts |
| `TurnOutcomes.EdgesOutOfFailed` | services/ocr-worker/src/coordinator.ts:359-502 | under any faults a turn only lengthens the timeline; it queues a failed attempt again only if some result failed for a transient reason and an attempt is left, and dead-letters only if not |
| `SmoothTurns.TransientFailureIsRetried` | services/ocr-worker/src/coordinator.ts:359-597 | no fault, lease in force, worker failed with a transient failure and an attempt left: reported retried; the timeline has claim, start, failure and the move back to queued more, the queue holds the next attempt, the outbox is clear and no result is stored |
| `SmoothTurns.OtherFailureGivesUp` | services/ocr-worker/src/coordinator.ts:359-602 | any other failure that can be classified: dead-lettered with its results stored and the job gone from the queue, exactly when the store can take all results; otherwise persistence failed at failed |
| `SmoothTurns.SuccessCompletes` | services/ocr-worker/src/coordinator.ts:433-460 | succeeded or partial: completed at that state with every result stored and the job gone from the queue, exactly when the store can take all results; otherwise persistence failed |
| `SmoothTurns.StoredIffStorable` | services/ocr-worker/src/coordinator.ts:446-451 | a valid report is stored in full exactly when its pages keep their numbers and no page has two different results |
| `SmoothTurns.LateRetryKeepsItsRow` | services/ocr-worker/src/coordinator.ts:507-549 | a retry acknowledged after the lease ran out is reported as lease lost; the move back to queued and the outbox row are stored and the queue still holds the job, so the next attempt is what runs next |
| `SmoothTurns.RejectedIsPutBack` | services/ocr-worker/src/coordinator.ts:270-320 | a worker that throws or whose report is turned down: reported requeued with the very job at the head, only the first move stored |
| `SmoothTurns.OverspentIsNotPersisted` | services/ocr-worker/src/coordinator.ts:359-396 | a failed report with an overspent budget and a failure to classify: persistence failed, only the first move stored |
| `SmoothTurns.SkippedStepIsRefused` | services/ocr-worker/src/coordinator.ts:433-460 | a report that leaves out the step into processing passes the contract and is refused by the store: persistence failed, only the first move stored |
| `CoordinatorRuns.NoTurnLosesAJob` | services/ocr-worker/src/coordinator.ts:476-595 | stop a turn after any number of its calls: the job is finished, queued or in the outbox |
| `CoordinatorRuns.CompletedOnlyWhenSafe` | services/ocr-worker/src/coordinator.ts:534-536 | a claim is completed only when the job is finished or the bumped outbox row is stored |
| `CoordinatorRuns.RetryCountMatchesAttempts` | services/ocr-review/src/lifecycle.ts:73-81 | with a clock that advances and an outbox that never fails the derived retry count equals the attempts spent, for every unfinished job after every history |
| `CoordinatorRuns.ResultsAreFinal` | services/ocr-worker/src/coordinator.ts:446-451 | with a clock that advances results on file never change again |
| `CoordinatorRuns.ResultsHaveOneSource` | services/ocr-worker/src/coordinator.ts:298 | with a clock that advances all results of a job come from one single reply of the worker |
| `CoordinatorRuns.ClaimMoveAcceptedIff` | services/ocr-worker/src/coordinator.ts:246-253 | the first write of a turn is accepted exactly when the very same move is on file, or the job is new or back in the queue |
| `CoordinatorRuns.OpensIff` | services/ocr-worker/src/coordinator.ts:246-268 | at a new instant a turn gets past its first write exactly when that write works and the job is not stranded |
| `CoordinatorRuns.FailedStartStrands` | services/ocr-worker/src/coordinator.ts:254-295 | a job that could start is left at claimed when its first write took effect and then the answer was lost, the worker threw or its outcome was turned down |
| `CoordinatorRuns.StrandedTurnIsIdle` | services/ocr-worker/src/coordinator.ts:254-268 | a turn on a stranded job stores nothing and reports a failure; the worker plays no part |
| `CoordinatorRuns.StrandedForever` | services/ocr-worker/src/coordinator.ts:257-264 | over all later histories whose turns start at new instants, a stranded job keeps its timeline and its results: the next turn does not reconcile it |
| `CoordinatorRuns.FailedStartNeverFinishes` | services/ocr-worker/src/coordinator.ts:270-284 | one failed start, and in no later history is the job ever finished |
| `CoordinatorRuns.StrandNewJob` | services/ocr-worker/src/coordinator.ts:270-284 | the input: a new job, nothing fails, the worker throws once; the job is left at claimed and never finishes |
| `ReviewSummaries.BuildJobSummary` | services/ocr-review/src/crossJob.ts:87-141 | counts results by success and review mark and submitted pages without a result; the state is the cached one, shown as terminal exactly when it is |
| `ReviewSummaries.DerivePageBreakdown` | services/ocr-review/src/summary.ts:97-143 | counts and lists submitted pages by the state of their result |
| `ReviewSummaries.SummariesCount` | services/ocr-review/src/summary.ts:97-143 | the counts are numbers of results with, or without, the status succeeded, of marked results, and of pages whose last result succeeded, did not, or is missing |
| `ReviewSummaries.DeriveRetryCount` | services/ocr-review/src/lifecycle.ts:73-81 | the number of moves from failed to queued |
| `ReviewSummaries.CurrentStateIsCached` | services/ocr-review/src/lifecycle.ts:64-70 | the state derived from the timeline is the cached one |
| `ReviewSummaries.SummariesAgreeIff` | services/ocr-review/src/crossJob.ts:99-111 | the two summaries agree and add up exactly when every page with a result is listed once |
| `ReviewSummaries.SummariesAgreeInStore` | services/ocr-review/src/summary.ts:119-133 | in every reachable store distinct page ids make the summaries agree |
| `ReviewSummaries.ListedTwiceDisagrees` | services/ocr-review/src/crossJob.ts:108-111 | a page listed twice with one result is counted once by one summary and twice by the other |
| `CanonicalJsonReader.ReadQuoted` | services/ocr-persistence/src/replaySafe.ts:40-43 | a quoted string is uniquely readable, escapes and lone surrogates included |
| `CanonicalJsonReader.PrintedReadsAs` | services/ocr-persistence/src/replaySafe.ts:40-58 | every printed value reads back as its meaning wherever a value may stand |
| `CanonicalJsonReader.SameTextIffSameMeaning` | services/ocr-persistence/src/replaySafe.ts:40-58 | two canonical texts are equal exactly when the values mean the same, for all values |
| `CanonicalJsonReader.DeepEqualsIsEquality` | services/ocr-persistence/src/replaySafe.ts:60-63 | without undefined elements and non-finite numbers, equal texts are exactly equality up to key order |
| `CanonicalJsonReader.TextsCollide` | services/ocr-worker/src/inMemoryQueue.ts:60-70 | an array of one undefined element prints as the empty array, a non-finite number as null |
| `EditDistance.Levenshtein` | services/ocr-worker-bakeoff/src/accuracy.ts:101-123 | the two-row loop with its argument swap computes the recursive edit distance |
| `EditDistance.DistanceSymmetric` | services/ocr-worker-bakeoff/src/accuracy.ts:101-104 | the distance is symmetric |
| `EditDistance.TriangleInequality` | services/ocr-worker-bakeoff/src/accuracy.ts:101-123 | the distance satisfies the triangle inequality |
| `EditDistance.DistanceBounds` | services/ocr-worker-bakeoff/src/accuracy.ts:88-92 | the distance lies between the length difference and the longer length |
| `EditDistance.DistanceZero` | services/ocr-worker-bakeoff/src/accuracy.ts:101-123 | the distance is zero exactly for equal sequences |
| `EditDistance.NoFewerEdits` | services/ocr-worker-bakeoff/src/accuracy.ts:101-123 | no way from one sequence to the other by single deletions, insertions and replacements takes fewer edits |
| `EditDistance.EnoughEdits` | services/ocr-worker-bakeoff/src/accuracy.ts:101-123 | some way takes exactly that many |
| `EditDistance.ComputeCer` | services/ocr-worker-bakeoff/src/accuracy.ts:80-93 | the error rate is the distance over the longer length, lies in [0, 1] and is 0 exactly for equal sequences |
| `OrderMetric.ContainmentHits` | services/ocr-worker-bakeoff/src/verdict.ts:155-163 | the counting loop counts exactly the multiset intersection |
| `OrderMetric.ComputeContainment` | services/ocr-worker-bakeoff/src/verdict.ts:155-163 | the share of the reference contained in the candidate; none for an empty reference |
| `OrderMetric.LcsLength` | services/ocr-worker-bakeoff/src/verdict.ts:182-187 | the rolling-row loop computes the recursive longest common subsequence |
| `OrderMetric.LcsIsUpperBound` | services/ocr-worker-bakeoff/src/verdict.ts:182-187 | no common subsequence is longer |
| `OrderMetric.LcsIsAttained` | services/ocr-worker-bakeoff/src/verdict.ts:182-187 | some common subsequence is that long |
| `OrderMetric.LcsWithinContainment` | services/ocr-worker-bakeoff/src/verdict.ts:188 | it never exceeds the contained count, so the clamp at 1 is idle |
| `OrderMetric.ComputeOrder` | services/ocr-worker-bakeoff/src/verdict.ts:176-189 | the order metric is that length over the contained count, at most 1 without the clamp |
| `Verdict.TallySubgroup` | services/ocr-worker-bakeoff/src/verdict.ts:254-265 | the members loop, for one engine and one subgroup, counts the keys of the first observations; `Aggregation.AggregateCountsMembers` says what they mean |
| `Verdict.TallyConserves` | services/ocr-worker-bakeoff/src/verdict.ts:254-265 | successes plus failure tallies equal the fixtures exactly when no fixture failed with the code "constructor" |
| `Verdict.ConstructorCodeBreaksTheTally` | services/ocr-worker-bakeoff/src/verdict.ts:261-262 | a failure coded "constructor" picks up an inherited property and leaves no number in the tally |
| `Aggregation.Aggregate` | services/ocr-worker-bakeoff/src/verdict.ts:224-297 | a report is refused for the first scored fixture without a subgroup, then for a count that differs from the manifest; otherwise exactly the engines probed or observed are aggregated, every number a number of members |
| `Aggregation.AggregateEngine` | services/ocr-worker-bakeoff/src/verdict.ts:240-295 | for one engine, exactly the subgroups with members; every number is a number of members told by the observations alone |
| `Aggregation.AggregateCountsMembers` | services/ocr-worker-bakeoff/src/verdict.ts:254-272 | successes are the members whose first observation by the engine succeeded; under "not_run" stand those without one, under a code those that first failed with it, under "unrecognised_code" those whose code has no code shape; nothing else is counted |
| `Aggregation.SubgroupBySuffix` | services/ocr-worker-bakeoff/src/verdict.ts:192-197 | the three subgroups are told by the media and the ending of the id alone |
| `Aggregation.ScoredCount` | services/ocr-worker-bakeoff/src/verdict.ts:229 | an active fixture of the role is scored as often as the manifest lists it, and no other is |
| `Aggregation.MembersPartition` | services/ocr-worker-bakeoff/src/verdict.ts:192-197 | when every scored fixture has a subgroup, each falls into exactly one, as often as it is listed |
| `Aggregation.SubgroupsSumToScored` | services/ocr-worker-bakeoff/src/verdict.ts:229-244 | in an accepted report the subgroup sizes of every engine add up to the fixtures scored |
| `Aggregation.AggregateConserves` | services/ocr-worker-bakeoff/src/verdict.ts:246-282 | for every engine and subgroup successes plus failure tallies equal the members exactly when no member first failed with the code "constructor"; the success rate is their share |
| `Aggregation.ReportConserves` | services/ocr-worker-bakeoff/src/verdict.ts:224-297 | in an accepted report without that code the outcomes of every engine over all subgroups add up to the fixtures scored |
| `Aggregation.UnnamedPdfIsRefused` | services/ocr-worker-bakeoff/src/verdict.ts:230-233 | a scored PDF whose id has neither suffix makes the whole report refused |
| `Verdict.PercentileIsNearestRank` | services/ocr-worker-bakeoff/src/verdict.ts:199-203 | the least value that at least p per cent of the list does not exceed |
| `Verdict.PercentileMonotone` | services/ocr-worker-bakeoff/src/verdict.ts:199-203 | the percentile is monotone in p |
| `Verdict.RankOrderIsStrictTotal` | services/ocr-worker-bakeoff/src/verdict.ts:356-368 | the ranking comparator is a strict total order on candidates with distinct names, whatever is unmeasured; `RankingFollowsKeys` says which way it goes |
| `Verdict.RankingIsCanonical` | services/ocr-worker-bakeoff/src/verdict.ts:354-369 | the ranking is a permutation that does not depend on the order of the candidates, unmeasured last |
| `Verdict.RankingFollowsKeys` | services/ocr-worker-bakeoff/src/verdict.ts:355-368 | whoever stands before another in the ranking agrees with it on some keys and then has the smaller value under an ascending key, the larger under a descending one, or a value where the other has none; or agrees on all and has the lower name |
| `Verdict.AwardIsBest` | services/ocr-worker-bakeoff/src/verdict.ts:354-378 | the award goes to a qualifying candidate no other qualifying candidate precedes; `WinnerIsBestOnFirstKey` says what that means |
| `Verdict.WinnerIsBestOnFirstKey` | services/ocr-worker-bakeoff/src/verdict.ts:354-378 | no qualifying candidate has a smaller value than the winner under an ascending first key, or a larger one under a descending first key |
| `Verdict.RankedMeetAll` | services/ocr-worker-bakeoff/src/verdict.ts:343-353 | every ranked candidate has a measured value on the required side of every threshold |
| `Verdict.QualifiesMeansMeets` | services/ocr-worker-bakeoff/src/verdict.ts:343-352 | a candidate qualifies exactly when it is present and meets every requirement with a measured value |
| `SeekPaging.FindSeekStartIndex` | services/ocr-persistence/src/inMemoryRepo.ts:555-564 | the first row past the cursor, or the end |
| `SeekPaging.StylesAgree` | services/case-box-persistence/src/inMemoryFact.ts:468-489 | filtering the sorted rows by the cursor and slicing from the first row after it give the same page |
| `SeekPaging.PageIsGood` | services/case-box-persistence/src/inMemoryAggregations.ts:82-107 | a page is ascending, past its cursor, complete up to the next cursor, and ends the list when there is none |
| `SeekPaging.GuardNeverTrips` | apps/lawbar-desktop/renderer/overdueDashboardBanner.ts:93-97 | over a source whose pages advance the repeated-cursor guard never trips |
| `SeekPaging.DrainPages` | apps/lawbar-desktop/renderer/overdueDashboardBanner.ts:80-101 | the cursor-following loop, guard and page cap included |
| `SeekPaging.DrainIsGood` | apps/lawbar-desktop/renderer/overdueDashboardBanner.ts:86-98 | whatever is inserted or removed between pages, a drain that ends returns every row present throughout exactly once, in order |
| `SeekPaging.DrainIsSorted` | apps/lawbar-desktop/renderer/overdueDashboardBanner.ts:80-101 | over a list that stands still the drain yields the sorted rows once each for every limit, and fails only past the page budget |
| `PagedLists.DrainIsComplete` | apps/lawbar-desktop/renderer/overdueDashboardBanner.ts:80-101 | over a list that only grows, the whole loop with its guard returns every row there at the start exactly once, in order, and nothing that was never there |
| `OcrLists.ListOcrReviewPageRows` | services/ocr-persistence/src/inMemoryRepo.ts:419-506 | filter, join, sort, seek and slice: the page of the review list after the cursor |
| `OcrLists.ReviewPageIsGood` | services/ocr-persistence/src/inMemoryRepo.ts:483-499 | in a store in order such a page is ascending, past its cursor and complete up to the next one, whichever way paging resumes |
| `ListedRows.ReviewPageShows` | services/ocr-persistence/src/inMemoryRepo.ts:419-506 | a review page shows the marked results of the jobs asked for, from the cursor on, latest stored first and ties by job, page number and page id; none is left out before the next cursor |
| `ListedRows.JobPageShows` | services/ocr-persistence/src/inMemoryRepo.ts:355-417 | a page of jobs shows the jobs asked for, newest first and ties by id, none left out |
| `OcrLists.ReviewKeysDistinct` | services/ocr-persistence/src/inMemoryRepo.ts:525-532 | no two review rows of a store in order share a sort tuple |
| `OcrLists.OcrListsDrainSorted` | services/ocr-persistence/src/inMemoryRepo.ts:355-506 | following the cursors of the review or the job list returns exactly its rows, sorted, once each, for every limit |
| `OcrLists.ReviewDrainIsComplete` | services/ocr-persistence/src/inMemoryRepo.ts:419-506 | whatever is written to the store between pages, draining the review list returns every row there at the start exactly once |
| `OcrLists.JobDrainIsComplete` | services/ocr-persistence/src/inMemoryRepo.ts:355-417 | whatever is written to the store between pages, draining the job list returns every job there at the start exactly once |
| `CaseLists.FactKeysDistinct` | services/case-box-persistence/src/inMemoryFact.ts:460-468 | no two facts of a matter share a sort tuple |
| `CaseLists.DeadlineKeysDistinct` | services/case-box-persistence/src/inMemoryAggregations.ts:300-304 | no two deadlines of a matter share a sort tuple |
| `CaseLists.MatterKeysDistinct` | services/case-box-persistence/src/inMemoryAggregations.ts:76-87 | no two matters share a sort tuple |
| `ListedRows.FactPageShows` | services/case-box-persistence/src/inMemoryFact.ts:432-494 | a page of facts shows the facts of the matter with the tenant, status and source asked for, earliest first and ties by id, none left out |
| `ListedRows.DeadlinePageShows` | services/case-box-persistence/src/inMemoryAggregations.ts:306-364 | a page of deadlines shows those of the matter with the tenant, status and kind asked for, earliest first and ties by id, none left out |
| `ListedRows.MatterPageShows` | services/case-box-persistence/src/inMemoryAggregations.ts:65-112 | a page of matters shows those with the tenant and status asked for, newest first and ties by id, none left out |
| `CaseLists.MatterListsDrainSorted` | services/case-box-persistence/src/inMemoryFact.ts:460-494 | following the cursors of the facts or deadlines of a matter returns exactly the wanted rows, sorted, once each, for every limit |
| `CaseLists.MattersDrainSorted` | services/case-box-persistence/src/inMemoryAggregations.ts:65-112 | following the cursors of the matter list returns exactly the wanted matters, sorted, once each, for every limit |
| `CaseLists.FactDrainIsComplete` | services/case-box-persistence/src/inMemoryFact.ts:460-494 | whatever is written to the box between pages, draining the facts of a matter returns every fact there at the start exactly once |
| `CaseLists.DeadlineDrainIsComplete` | services/case-box-persistence/src/inMemoryAggregations.ts:306-364 | whatever is written to the box between pages, draining the deadlines of a matter returns every deadline there at the start exactly once |
| `TextOrder.UnitsInjective` | services/case-box-persistence/src/inMemoryAggregations.ts:83-87 | the code units by which strings are ordered determine the string |
| `SortKeys.MomentOrder` | services/case-box-persistence/src/inMemoryFact.ts:74-82 | facts and deadlines: the comparator is a strict total order and the cursor test is that order |
| `SortKeys.RecencyOrder` | services/ocr-persistence/src/inMemoryRepo.ts:386-392 | jobs and matters, newest first: the comparator is a strict total order and the cursor test is that order |
| `SortKeys.ReviewOrder` | services/ocr-persistence/src/inMemoryRepo.ts:465-481 | review rows, four keys in mixed directions: the comparator is a strict total order and the cursor test is that order |
| `AuditChain.VerifyAuditChain` | docs/contracts/case-box-contract/src/audit-log.ts:485-587 | verified exactly when every event is in order, with the head hash; otherwise the first fault in the source's order |
| `AuditChain.AnchorDeterminesChain` | services/case-box-persistence/src/inMemoryAudit.ts:147-165 | with an injective hash two histories that pass against one recorded head are the same history |
| `AuditChain.FollowingKeepsIntact` | services/case-box-persistence/src/auditChain.ts:70-76 | a chain stays in order exactly when the next event points back to its head and belongs to it |
| `AuditChain.InMemoryAuditLog.Append` | services/case-box-persistence/src/auditHeadAnchor.ts:32-37 | event and anchor are written in one step |
| `AuditChain.InMemoryAuditLog.AppendAll` | services/case-box-persistence/src/auditHeadAnchor.ts:40-42 | several events in order, the anchor on the last |
| `AuditChain.InMemoryAuditLog.Reset` | services/case-box-persistence/src/auditHeadAnchor.ts:45-49 | a chain seeded afresh |
| `AuditChain.InMemoryAuditLog.VerifyForMatter` | services/case-box-persistence/src/inMemoryAudit.ts:111-166 | passes exactly when the chain begins with its genesis, is in order and ends in the recorded head |
| `CaseTables.InsertKeepsIndex` | services/case-box-persistence/src/inMemoryFact.ts:544-549 | array, id set and home index stay in agreement and only the new id is found anew |
| `CaseTables.ReplaceKeepsIndex` | services/case-box-persistence/src/inMemoryRepo.ts:498-501 | replacing a slot keeps the indexes in agreement and changes the row of that id only |
| `CaseBoxState.PutKeepsTables` | services/case-box-persistence/src/inMemoryRepo.ts:177-199 | storing any record keeps all redundant indexes in agreement and touches that record only |
| `CaseBoxState.StepKeepsLedger` | services/case-box-persistence/src/inMemoryRepo.ts:236-325 | storing a record with its event keeps indexes, tenants, chains, anchors and the match of log and state |
| `MatterEdits.AssignMatterPartyIdsInPlace` | services/case-box-persistence/src/inMemoryMatter.ts:232-273 | both passes: duplicates refused, missing ids filled with the first free generated ones, bounded retries, the number handed out |
| `MatterEdits.AssignedPartiesOk` | services/case-box-persistence/src/inMemoryMatter.ts:106-110 | afterwards every party has a non-empty id of its own; parties that had one are left as they were, the others have nothing new but the id |
| `MatterEdits.NothingToAssign` | services/case-box-persistence/src/inMemoryMatter.ts:316-323 | parties that all have ids are left alone |
| `MatterEdits.DetectChanges` | services/case-box-persistence/src/inMemoryMatter.ts:469-498 | the field loop: trimmed texts, the name never cleared, the first complaint wins |
| `MatterEdits.EditReportsChanges` | services/case-box-persistence/src/inMemoryMatter.ts:469-504 | an accepted edit reports exactly the descriptive fields whose text it changed and changes nothing else |
| `MatterEdits.EditCorrects` | services/case-box-persistence/src/inMemoryMatter.ts:469-498 | the edit succeeds exactly when only texts are asked for and the name keeps one; it stores the trimmed text where one is given, none where a field is cleared, and the rest as it was |
| `MatterEdits.ChangedNamesInOrder` | services/case-box-persistence/src/inMemoryMatter.ts:499-504 | the list of changed fields holds the name of each once, in ascending order |
| `Supersession.SupersessionWalk` | services/case-box-persistence/src/inMemoryFact.ts:270-295 | the guard walk ends on any graph |
| `Supersession.WalkDecides` | services/case-box-persistence/src/inMemoryFact.ts:270-295 | it rejects exactly when the pointers reach the new fact or go round for ever, and its length check never fires |
| `Supersession.NewEdgeKeepsAcyclic` | services/case-box-persistence/src/inMemoryFact.ts:324-328 | a pointer from a fact nobody points at makes no cycle |
| `Supersession.CollectChain` | services/case-box-persistence/src/inMemoryAggregations.ts:414-431 | in a graph that keeps the rules the whole chain is returned and no defensive break cuts it short |
| `CaseBoxInvariant.AppendFactKeeps` | services/case-box-persistence/src/inMemoryFact.ts:510-552 | appending a fact keeps the whole box in order |
| `CaseBoxInvariant.TransitionFactKeeps` | services/case-box-persistence/src/inMemoryRepo.ts:491-504 | moving a fact keeps the whole box in order: pointers join accepted facts of one matter and tenant, without cycles |
| `CaseBoxInvariant.WalkNeverRejects` | services/case-box-persistence/src/inMemoryFact.ts:266-295 | in reachable states the guard walk never rejects |
| `CaseBoxInvariant.ConfirmKeeps` | services/case-box-persistence/src/inMemoryRepo.ts:563-596 | confirming keeps the whole box in order: confirmed entries and deadlines in bijection, the deadline as proposed, both events chained |
| `CaseBoxInvariant.ConfirmKeepsDocket` | services/case-box-persistence/src/inMemoryDocket.ts:281-312 | the confirmed entry and its deadline extend the bijection by one pair |
| `CaseBoxInvariant.ReconfirmIsIdle` | services/case-box-persistence/src/inMemoryDocket.ts:247-263 | confirming again changes nothing and emits nothing, for any options |
| `CaseBoxInvariant.AppendEntryKeeps` | services/case-box-persistence/src/inMemoryDocket.ts:544-586 | appending an entry keeps the whole box in order |
| `CaseBoxInvariant.DismissKeeps` | services/case-box-persistence/src/inMemoryRepo.ts:598-611 | dismissing an entry keeps the whole box in order |
| `CaseBoxInvariant.EditKeeps` | services/case-box-persistence/src/inMemoryDocket.ts:699-728 | editing an entry keeps the whole box in order |
| `CaseBoxInvariant.TransitionDeadlineKeeps` | services/case-box-persistence/src/inMemoryRepo.ts:803-816 | moving a deadline keeps the whole box in order |
| `CaseBoxInvariant.AppendMarkerKeeps` | services/case-box-persistence/src/inMemoryPrivilege.ts:443-477 | appending a marker keeps the whole box in order, its tenant known through its document only |
| `CaseBoxInvariant.TransitionMarkerKeeps` | services/case-box-persistence/src/inMemoryPrivilege.ts:250-266 | moving a marker keeps at most one confirmed marker of a kind for a target, across all matters |
| `CaseBoxInvariant.RegisterDocumentKeeps` | services/case-box-persistence/src/inMemoryRepo.ts:341-367 | registering a document keeps the whole box in order |
| `CaseBoxInvariant.TransitionMatterKeeps` | services/case-box-persistence/src/inMemoryMatter.ts:150-209 | archiving and unarchiving keep the whole box in order |
| `CaseBoxInvariant.UpdateDetailsKeeps` | services/case-box-persistence/src/inMemoryMatter.ts:436-573 | correcting details keeps the whole box in order |
| `CaseBoxInvariant.DetailsNeverDesync` | services/case-box-persistence/src/inMemoryMatter.ts:510-531 | in reachable states a details edit never reports that log and state have parted |
| `CaseBoxInvariant.EnsurePartyIdsIsIdle` | services/case-box-persistence/src/inMemoryMatter.ts:315-323 | in reachable states the party-id backfill has nothing to do |
| `CaseBoxInvariant.CreateMatterKeeps` | services/case-box-persistence/src/inMemoryRepo.ts:236-250 | creating a matter keeps the whole box in order and starts its chain |
| `CaseBoxInvariant.WriteKeepsBox` | services/case-box-persistence/src/inMemoryRepo.ts:8-11 | every public write, accepted or refused, keeps everything |
| `CaseBoxInvariant.EveryRunKeepsBox` | services/case-box-persistence/src/inMemoryRepo.ts:8-11 | after any sequence of writes the whole box is in order |
| `CaseBoxInvariant.EveryRunVerifies` | services/case-box-persistence/src/inMemoryAudit.ts:102-167 | after any sequence of writes every chain passes against its anchor, which counts its events |
| `CaseBoxInvariant.EveryRunInStep` | services/case-box-persistence/src/inMemoryMatter.ts:510-531 | the latest event about a record carries the hash of exactly the stored record; an update's before-hash is the previous after-hash; only a replacement acceptance re-creates |
| `CaseBoxEffects.OpeningAMatter` | services/case-box-persistence/src/inMemoryMatter.ts:53-132 | opening a matter: accepted exactly under the guards named; stored with ids for all parties, its chain is the one registration event by the creator |
| `CaseBoxEffects.ShelvingAMatter` | services/case-box-persistence/src/inMemoryMatter.ts:150-209 | archiving and unarchiving: the status and, when archived, the instant; the event carries actor, instant and reason |
| `CaseBoxEffects.BackfillingParties` | services/case-box-persistence/src/inMemoryMatter.ts:307-369 | the party-id backfill of a matter on file answers without a write |
| `CaseBoxEffects.CorrectingDetails` | services/case-box-persistence/src/inMemoryMatter.ts:436-573 | correcting details: accepted exactly under the guards named; the texts wanted are stored and the event lists the changed fields with actor, instant and reason |
| `CaseBoxEffects.RegisteringADocument` | services/case-box-persistence/src/inMemoryDocument.ts:50-129 | registering a document: accepted exactly under the guards named; stored as given, with its event |
| `CaseBoxEffects.AppendingAFact` | services/case-box-persistence/src/inMemoryFact.ts:96-186 | proposing a fact: accepted exactly under the guards named; stored as given, with its event |
| `CaseBoxEffects.AppendingAFactOnce` | services/case-box-persistence/src/inMemoryFact.ts:601-639 | the very fact on file is answered without a write; otherwise as proposing |
| `CaseBoxEffects.MovingAFact` | services/case-box-persistence/src/inMemoryFact.ts:198-389 | moving a fact: accepted exactly along an edge with the reason or replacement it needs; reviewer, instants, reason and pointer are those given, a review on record stays |
| `CaseBoxEffects.ProposingAnEntry` | services/case-box-persistence/src/inMemoryDocket.ts:106-205 | proposing a docket entry: accepted exactly under the guards named; stored as given, with its event |
| `CaseBoxEffects.ConfirmingAnEntry` | services/case-box-persistence/src/inMemoryDocket.ts:216-372 | confirming: entry and deadline with the actor, instant, kind, date and owner given, two chained events; a confirmed entry is answered with its deadline and nothing is written |
| `CaseBoxEffects.DismissingAnEntry` | services/case-box-persistence/src/inMemoryDocket.ts:381-470 | dismissing: actor, instant and reason are those given, in the entry and in the event |
| `CaseBoxEffects.EditingAnEntry` | services/case-box-persistence/src/inMemoryDocket.ts:607-697 | editing: accepted exactly when matter, tenant, entry, state, schema and time zone fit; the entry keeps everything but its proposal, which is the one given, and the instant of revision; no other record changes |
| `CaseBoxEffects.TurningADeadline` | services/case-box-persistence/src/inMemoryDeadline.ts:94-195 | moving a deadline: accepted exactly along an edge; meeting it is dated, and only a missed one says so and why |
| `CaseBoxEffects.ProposingAMarker` | services/case-box-persistence/src/inMemoryPrivilege.ts:88-180 | proposing a marker: accepted exactly under the guards named; stored as given, with its event |
| `CaseBoxEffects.DecidingAMarker` | services/case-box-persistence/src/inMemoryPrivilege.ts:200-339 | deciding on a marker: accepted exactly along an edge, with the reason it needs and, to confirm, no confirmed twin in any matter; actor, instant and reason are those given |
| `CaseBoxHistory.WriteIsLegal` | docs/contracts/case-box-contract/src/transitions.ts:200-259 | every write moves a record along an edge of its life cycle, with its provenance left alone, or begins one in good order |
| `CaseBoxHistory.EndedRecordsFreeze` | docs/contracts/case-box-contract/src/transitions.ts:363-372 | a record never disappears or changes matter or tenant; one whose life has ended never changes again |
| `CaseBoxHistory.RunKeepsCoherent` | services/case-box-persistence/src/inMemoryFact.ts:308-329 | after every run the fields of every record fit its status, reasons included |
| `CaseBoxHistory.AcceptedFactsWereReviewed` | docs/contracts/case-box-contract/src/transitions.ts:242-252 | no fact is ever accepted without a reviewer and a review |
| `CaseBox.LatestEventAbout` | services/case-box-persistence/src/inMemoryRepo.ts:292-299 | the newest-first scan finds the latest event about a record |
| `CaseBox.HasConfirmedTwin` | services/case-box-persistence/src/inMemoryPrivilege.ts:251-266 | the scan finds another confirmed marker of the same target and kind exactly when there is one |
| `CaseBox.PrepareCreateMatter` | services/case-box-persistence/src/inMemoryMatter.ts:53-132 | the checks in order, ids before hashing, the genesis event |
| `CaseBox.PrepareEnsurePartyIds` | services/case-box-persistence/src/inMemoryMatter.ts:307-369 | the backfill and its continuity check against the last event |
| `CaseBox.PrepareUpdateDetails` | services/case-box-persistence/src/inMemoryMatter.ts:436-573 | the edit, its continuity check against the latest matter event, the sorted changed fields |
| `CaseBox.PrepareTransitionFact` | services/case-box-persistence/src/inMemoryFact.ts:198-389 | the checks in order with the guard walk, the patched fact, the event |
| `CaseBox.PrepareTransitionMarker` | services/case-box-persistence/src/inMemoryPrivilege.ts:200-339 | the checks in order with the twin scan, the patched marker, the event |
| `CaseBox.InMemoryCaseBoxPersistence.CreateMatter` | services/case-box-persistence/src/inMemoryRepo.ts:236-250 | commits what was prepared and restarts the chain, or changes nothing; in a box in order exactly what `CaseBoxEffects.OpeningAMatter` says, answer included |
| `CaseBox.InMemoryCaseBoxPersistence.TransitionMatter` | services/case-box-persistence/src/inMemoryRepo.ts:306-325 | commits what was prepared, or changes nothing; in a box in order exactly what `CaseBoxEffects.ShelvingAMatter` says, answer included |
| `CaseBox.InMemoryCaseBoxPersistence.EnsureMatterPartyIds` | services/case-box-persistence/src/inMemoryRepo.ts:260-278 | commits what was prepared, or changes nothing; in a box in order exactly what `CaseBoxEffects.BackfillingParties` says, answer included |
| `CaseBox.InMemoryCaseBoxPersistence.UpdateMatterDetails` | services/case-box-persistence/src/inMemoryRepo.ts:280-304 | commits what was prepared, or changes nothing; in a box in order exactly what `CaseBoxEffects.CorrectingDetails` says, answer included |
| `CaseBox.InMemoryCaseBoxPersistence.RegisterDocument` | services/case-box-persistence/src/inMemoryRepo.ts:341-367 | commits what was prepared, or changes nothing; in a box in order exactly what `CaseBoxEffects.RegisteringADocument` says, answer included |
| `CaseBox.InMemoryCaseBoxPersistence.AppendFact` | services/case-box-persistence/src/inMemoryRepo.ts:481-484 | commits what was prepared, or changes nothing; in a box in order exactly what `CaseBoxEffects.AppendingAFact` says, answer included |
| `CaseBox.InMemoryCaseBoxPersistence.AppendFactOnce` | services/case-box-persistence/src/inMemoryFact.ts:601-639 | answers the very same fact from the store, otherwise appends strictly; in a box in order exactly what `CaseBoxEffects.AppendingAFactOnce` says, answer included |
| `CaseBox.InMemoryCaseBoxPersistence.TransitionFact` | services/case-box-persistence/src/inMemoryRepo.ts:491-504 | commits what was prepared, or changes nothing; in a box in order exactly what `CaseBoxEffects.MovingAFact` says, answer included |
| `CaseBox.InMemoryCaseBoxPersistence.AppendDocketEntry` | services/case-box-persistence/src/inMemoryRepo.ts:558-561 | commits what was prepared, or changes nothing; in a box in order exactly what `CaseBoxEffects.ProposingAnEntry` says, answer included |
| `CaseBox.InMemoryCaseBoxPersistence.ConfirmDocketEntry` | services/case-box-persistence/src/inMemoryRepo.ts:563-596 | entry, deadline and both events together, or the earlier confirmation again, or nothing; in a box in order exactly what `CaseBoxEffects.ConfirmingAnEntry` says, answer included |
| `CaseBox.InMemoryCaseBoxPersistence.DismissDocketEntry` | services/case-box-persistence/src/inMemoryRepo.ts:598-611 | commits what was prepared, or changes nothing; in a box in order exactly what `CaseBoxEffects.DismissingAnEntry` says, answer included |
| `CaseBox.InMemoryCaseBoxPersistence.EditDocketEntry` | services/case-box-persistence/src/inMemoryRepo.ts:613-616 | commits what was prepared, or changes nothing; in a box in order exactly what `CaseBoxEffects.EditingAnEntry` says, answer included |
| `CaseBox.InMemoryCaseBoxPersistence.TransitionDeadline` | services/case-box-persistence/src/inMemoryRepo.ts:803-816 | commits what was prepared, or changes nothing; in a box in order exactly what `CaseBoxEffects.TurningADeadline` says, answer included |
| `CaseBox.InMemoryCaseBoxPersistence.AppendPrivilegeMarker` | services/case-box-persistence/src/inMemoryRepo.ts:436-439 | commits what was prepared, or changes nothing; in a box in order exactly what `CaseBoxEffects.ProposingAMarker` says, answer included |
| `CaseBox.InMemoryCaseBoxPersistence.TransitionPrivilegeMarker` | services/case-box-persistence/src/inMemoryRepo.ts:441-455 | commits what was prepared, or changes nothing; in a box in order exactly what `CaseBoxEffects.DecidingAMarker` says, answer included |
| `CaseBox.InMemoryCaseBoxPersistence.VerifyAuditChainForMatter` | services/case-box-persistence/src/inMemoryRepo.ts:398-401 | in every reachable state the verdict is verified, with the anchor's count and head |
| `CaseBox.InMemoryCaseBoxPersistence.GetFactSupersessionChain` | services/case-box-persistence/src/inMemoryAggregations.ts:397-432 | in every reachable state the whole chain of a fact the reader may see |
| `MatterSummary.CountFacts` | services/case-box-persistence/src/inMemoryAggregations.ts:137-145 | facts of the tenant by status |
| `MatterSummary.CountEntries` | services/case-box-persistence/src/inMemoryAggregations.ts:155-163 | docket entries of the tenant by state |
| `MatterSummary.CountDeadlines` | services/case-box-persistence/src/inMemoryAggregations.ts:146-154 | deadlines of the tenant by status |
| `MatterSummary.CountDocuments` | services/case-box-persistence/src/inMemoryAggregations.ts:131-136 | documents of the matter and the tenant |
| `MatterSummary.CountMarkers` | services/case-box-persistence/src/inMemoryAggregations.ts:174-175 | privilege markers of the tenant |
| `MatterSummary.GetMatterSummary` | services/case-box-persistence/src/inMemoryAggregations.ts:118-200 | nothing for an unknown matter, an error for a foreign tenant, otherwise all the counts of the kinds of records modelled |
| `MatterSummary.SummaryCounts` | services/case-box-persistence/src/inMemoryAggregations.ts:131-175 | each number of the breakdowns is the number of rows of the tenant in the status it is named after |
| `MatterSummary.MarkerFilterIsIdle` | services/case-box-persistence/src/inMemoryAggregations.ts:173-175 | in a box in order all markers of a matter have its tenant, though it was only ever checked against their documents |
| `MatterSummary.SummaryAccountsForAll` | services/case-box-persistence/src/inMemoryAggregations.ts:118-200 | in a box in order the tenant filters drop nothing: every count, documents and markers included, is the unfiltered one, and each breakdown adds up to all rows of the matter |

## Left out

- Evidence items, claim tracks, OCR links and classifications, and their counts in the matter summary: the same patterns as the six kinds of records modelled.
- SQLite stores, file hashing, manifests and runners: foreign calls and I/O.
- The Electron shell, renderer screens, routing and configuration.
- Cursor encoding: a cursor is the sort tuple itself; filter hashes and base64 are not modelled, nor the scope checks before a list is read.
- Unicode normalisation and whitespace folding before the metrics: the metrics start from token sequences.
- The tie report, control slot and rounding of the verdict, and its mean, inflation, latency and memory columns: plain arithmetic over the successes counted.
- Wording of error messages and notes; the classifier's sentence is kept as a structured reason.
- Interleaved turns, lease renewal by a running worker, and cancellation by the web application: no writer of these edges takes part in a turn.
- Coordinator.ProcessOneOcrQueueClaim: under faults a job can end without its results, and nothing is claimed about them, because moves are written before results and a redelivered finished job is only acknowledged.
- OcrStore.InMemoryOcrPersistence.AppendOcrStatus: the date-time format of instants is not checked, because it plays no part in the chain.
- CaseBox.InMemoryCaseBoxPersistence.AppendFactOnce: the depth and cycle limits of the canonical projection are not modelled, because a typed fact has neither.
- Aliasing: records are values here, so the defensive copies of the source have no counterpart.
