# A verified model of the bid evaluation backend

This project models the parts of the backend that carry its guarantees and proves them for every input and every run:
the job pipeline (outbox, queue, worker, job state machine, dead-letter queue), the evidence budget allocator, the text
chunker, the audit hash chain, and five smaller state machines (resume tokens, cost budget, circuit breaker, object
storage, legal holds). Run `dafny verify dfyconfig.toml` in this directory.

| module | models |
|---|---|
| `QueueSpec`, `QueueOrder`, `InMemoryQueue` | the in-memory queue as a class, its state functions, the order in which it hands out, and the pool of messages it refines |
| `RedisQueue`, `RedisQueueSafety`, `RedisQueueSolo` | the Redis queue, one Redis command per step, any number of processes, crashes anywhere |
| `WorkerHistory`, `WorkerRuntime` | the log of handled messages with their runs and delays, and what fairness means on it; the worker loop and the drain-once route, over the in-memory queue |
| `JobMachine` | job statuses, retries, backoff, dead-letter items, parse manifests, over runs of `run_job_once` and `cancel_job` |
| `JobPipeline`, `JobPipelineSafety`, `JobPipelineRelay`, `JobPipelineCover`, `JobPipelineDlq`, `JobPipelineTended`, `JobPipelineRuns`, `JobPipelineLimits` | creation, relay, queue, workers and cancellation interleaved in small steps with crashes |
| `StableSort`, `TokenBudget`, `ReportBudget` | ranking, deduplication, trimming, and the greedy cut across criteria |
| `PythonStrings`, `ChunkText`, `ChunkCuts` | the overlapping chunker, the joined text its offsets index, and where it cuts |
| `AuditChain` | appending to and checking the audit log, with a symbolic collision-free hash |
| `ResumeTokens`, `ResumeHistory` | one-time resume tokens inside idempotent requests, and when a request succeeds, read off the history |
| `CostBudget` | the sticky budget tracker and the scoring loop |
| `CircuitBreaker` | retries, failure counting, opening and resetting per tool |
| `ObjectStorage`, `LegalHold`, `LegalHoldSafety`, `LegalHoldRules` | the local object store, holds, re-archiving, cleanup, retention, and who can end a hold |

Classes follow the code that changes state step by step; each method is proved equal to a function on values, and the
lemmas are about these functions. Clocks, fresh identifiers, outcomes of job runs, replies of language models and token
counts are parameters: theorems hold for all of them. Scores are `real`, token counts any function to `nat`.

## What was found

These are properties that do not hold of the code as one would expect, each with a lemma that shows it and, where it
has one, the exact condition under which it does hold.

- A creation that stops between storing the job and appending its outbox event leaves the job queued for ever
  (`AbandonedCreationOrphans`). A crash within a Redis dequeue, or within a nack after a retry, loses the message; it
  orphans a waiting job if and only if that was the job's last message (`StepOrphansIff`, `LostNackOrphansJob`). There
  are no other uncovered queued or retrying jobs (`NoOrphanedJob`).
- A run that raises while its job is running leaves the job in `running`, without message and without dead-letter item
  (`RaisedRunStrandsJob`); the drain-once route also leaves the message in flight (`DrainOnce`). A step strands a
  started job if and only if it is such a raise and no other message tends the job (`StepTendsIff`); in every other run
  that does not lose its last message, a job whose creation was completed keeps an event or a message until it is final
  or waits for a decision (`NoJobLeftBehind`).
- Two relay requests for one consumer that overlap on an event enqueue it twice without any crash
  (`OverlappingRelaysDuplicate`). A run stays within one message plus one per crash at every moment if and only if no
  relay enqueues for an event and consumer that is already marked or about to be marked (`StepDoublesIff`,
  `StaysWithinIff`); requests that do not overlap never do (`OneMessagePlusCrashes`, `ApartRelaysSendOnce`), and in
  general the messages are counted exactly (`EnqueuesAreCounted`).
- Two workers on such duplicates can record one job twice in the dead-letter queue (`DuplicatesDoubleTheDlqItem`). A job
  never has more items than messages sent for it (`ItemsAtMostMessages`), and so exactly one when it failed uncancelled
  and was sent once (`SentOnceFailedOnce`, `OneItemPlusCrashes`).
- The write-back of a private copy after a status change can undo a cancellation (`CancellationCanBeLost`), and it is
  the only step that takes a job out of a final record (`FinalRecordLeftOnlyByStaleCopy`).
- A parse job is marked succeeded before its document is parsed (`SucceededBeforeParsed`), and a refused run sets the
  manifest of a finished parse job back to running (`RunMirrorsUnlessRefused`).
- `list_tenants` never lists the empty tenant, so its messages are never drained (`ListTenants`, `RunOnce`).
- A Redis message with an empty tenant or queue name can be dequeued, but ack and nack do nothing to it
  (`UnnamedStaysHeld`, `UnnamedIsReached`).
- What a crashed Redis worker held or was working on is never delivered again (`CrashLoses`, `LostForever`).
- The chunker's offsets index the joined text for every input if and only if 0 < overlap < 50; the defaults 800/150 are
  outside (`TilesEveryInputIff`, `DefaultsDoNotTile`).
- The audit check of one tenant fails on an untouched log as soon as another tenant's row precedes one of its own
  (`TenantPassesIff`, `TenantVerdict`).
- `check_budget` documents a status `warn` that it never returns (`CheckBudget`).
- A legal hold request with blanks around its id can create a second active hold, whose release unflags the object of
  the first (`ImposeDuplicatesIff`, `SecondHoldUnflags`, `UntrimmedWitness`).
- A release clears the flag of the latest object of a hold only, so it unflags everything it covered if and only if the
  hold covered one object at most (`ReleaseLeavesOlderFlags`, `ReleaseClearsAllIff`, `OlderFlagWitness`).

## Model

| member | source | states |
|---|---|---|
| QueueSpec.RunRefines | app/queue_backend.py:28-129 | over any run of enqueue, dequeue, ack and nack, each live message is in exactly one place: once in the deque of its own key, or in flight |
| QueueSpec.StepRefines | app/queue_backend.py:57-129 | each single call moves one message in the abstract pool and nothing else; a refused call changes nothing |
| QueueSpec.EnqueueRefines | app/queue_backend.py:57-80 | an enqueued message becomes pending once, under its own key |
| QueueSpec.DequeueRefines | app/queue_backend.py:82-97 | a dequeue hands out a pending message and makes it in flight, or changes no message |
| QueueSpec.AckRefines | app/queue_backend.py:99-106 | an ack removes the in-flight message and no other |
| QueueSpec.NackRefines | app/queue_backend.py:108-129 | a nack makes the in-flight message pending again at the head of its deque, or drops it |
| QueueSpec.FirstAvailable | app/queue_backend.py:41-51 | the first message of a deque that is due, if any |
| QueueSpec.AttemptCountsNacks | app/queue_backend.py:108-129 | `attempt` of a live message is its initial value plus the nacks it got |
| QueueSpec.QueueKeyInjective | app/queue_backend.py:53-55 | with colon-free queue names a key names one tenant and one queue |
| QueueSpec.QueueKeyCollision | app/queue_backend.py:53-55 | without that, two tenants can share a deque |
| QueueOrder.HandsOutInOrder | app/queue_backend.py:82-97 | at one time, dequeues in a row hand out exactly the due messages of a deque, in its order, whatever they pass over |
| QueueOrder.FirstInFirstOut | app/queue_backend.py:57-97 | due messages enqueued to an empty deque come out in the order they went in |
| QueueOrder.PutBackComesFirst | app/queue_backend.py:108-129 | a message put back is the first to come, one attempt older, from the moment its delay is over and not before; until then its queue hands out what it would without it |
| InMemoryQueue.InMemoryQueueBackend.Enqueue | app/queue_backend.py:57-80 | the new message and the state with it at the end of its deque |
| InMemoryQueue.InMemoryQueueBackend.Dequeue | app/queue_backend.py:82-97 | the rotation scan takes the first due message and leaves the rotated rest; without one the deque is back as it was |
| InMemoryQueue.InMemoryQueueBackend.Ack | app/queue_backend.py:99-106 | ignores unknown ids, refuses another tenant, else removes the message |
| InMemoryQueue.InMemoryQueueBackend.Nack | app/queue_backend.py:108-129 | ignores unknown ids, refuses another tenant, else counts the attempt and requeues at the front with the delay, or drops |
| InMemoryQueue.InMemoryQueueBackend.ListTenants | app/queue_backend.py:141-153 | exactly the non-empty tenants with a non-empty deque of this queue, sorted, each once |
| InMemoryQueue.TenantOfKeyInverts | app/queue_backend.py:141-153 | parsing a key gives a tenant exactly when it is that tenant's key |
| InMemoryQueue.DequeueNoneIff | app/queue_backend.py:82-97 | a dequeue returns nothing if and only if no message of the deque is due |
| InMemoryQueue.DequeHoldsOwn | app/queue_backend.py:53-97 | a deque holds exactly the pending messages of its tenant and queue |
| RedisQueueSafety.RunKeepsInv | app/queue_backend.py:474-611 | every interleaving of single commands, crashes included, keeps one place per id and stored data that agrees with it |
| RedisQueueSafety.HeldByOne | app/queue_backend.py:523-611 | in every reachable state a held message is held by one process and is on no pending list |
| RedisQueueSafety.QuiescentPlaces | app/queue_backend.py:474-611 | when no operation is midway, each id ever drawn is pending once, in flight with one holder, discarded, erased, or lost by a crash, with stored status and sets agreeing |
| RedisQueueSafety.LiveMessagesAreSomewhere | app/queue_backend.py:474-611 | without crashes each stored, undiscarded message is then either pending or in flight, not both |
| RedisQueueSafety.NoCrashNoLoss | app/queue_backend.py:474-611 | only crashes lose messages |
| RedisQueueSafety.CrashLoses | app/queue_backend.py:523-611 | a crash loses exactly what the process held or was working on |
| RedisQueueSafety.LostForever | app/queue_backend.py:523-611 | a lost message is never listed or held again |
| RedisQueueSolo.SoloEnqueue | app/queue_backend.py:474-521 | undisturbed, the three commands store the message as pending at the end of its list |
| RedisQueueSolo.SoloDequeue | app/queue_backend.py:523-555 | undisturbed, the scan ends and does what the in-memory dequeue does: first due message out, the rest rotated behind it, or the list as it was |
| RedisQueueSolo.UnnamedStaysHeld | app/queue_backend.py:442-456 | ack and nack of a held message whose tenant or queue name is empty change nothing at all |
| RedisQueueSolo.UnnamedIsReached | app/queue_backend.py:474-555 | every such message that is due can be enqueued and taken, and is then held so |
| RedisQueueSolo.SoloAck | app/queue_backend.py:557-570 | undisturbed, the holder's ack of a message with tenant and queue name removes record, index entry and set member and nothing else |
| RedisQueueSolo.SoloNack | app/queue_backend.py:572-611 | undisturbed, the holder's nack of a message with tenant and queue name counts the attempt and puts the message at the front with its delay, or discards it |
| WorkerRuntime.WorkerRuntime.RunOnce | app/worker_runtime.py:98-120 | the loop ends; the log grows by one turn per processed message, and these turns lead from the old pool to the new one; processed is at most the maximum and equals acked plus requeued; succeeded, retrying and failed count the runs of each verdict; nothing stays in flight; with a frozen clock the logged turns are fair, and every queue is drained when it ends below the maximum |
| WorkerRuntime.WorkerRuntime.DrainQueue | app/worker_runtime.py:100-120 | in one queue a tenant left with a due message has at most the burst limit fewer messages in the log of this drain than any other tenant; each logged message was pending when it was taken |
| WorkerRuntime.WorkerRuntime.RunRound | app/worker_runtime.py:101-119 | one round logs for each listed tenant at most the burst limit, and the whole limit if it still has due messages, and for nobody else any |
| WorkerRuntime.WorkerRuntime.RunBurst | app/worker_runtime.py:106-117 | one burst touches one deque, logs only messages of its tenant and queue, and stops early only at the maximum or when nothing is due |
| WorkerRuntime.WorkerRuntime.ProcessMessage | app/worker_runtime.py:58-96 | handles a message exactly when one is due, logs it with its run and delay as a message of this tenant and queue that was pending, accounts for it once, and never makes more messages due |
| WorkerRuntime.WorkerRuntime.RunAndSettle | app/worker_runtime.py:62-96 | runs the message's job for its tenant; exactly when the run says retry, requeues it one attempt older and due the run's delay after a reading made in this turn, and drops it otherwise; counts it by its outcome |
| WorkerRuntime.WorkerRuntime.DrainMessage | app/routes/internal.py:914-945 | one message of the drain-once route, acked or put back one attempt older and due its run's own delay after a reading of this turn; a run that raises leaves it in flight |
| WorkerRuntime.WorkerRuntime.DrainOnce | app/routes/internal.py:892-959 | at most the given number of messages; the listed ones, each acked or put back due its own delay later, explain how the pool changed, except one that stays in flight exactly when a run raised; succeeded, retrying and failed are the numbers of runs that ended so, with one that awaits a decision counted as failed |
| WorkerHistory.StaysFair | app/worker_runtime.py:98-120 | work on later queues does not spoil the fairness of earlier ones |
| WorkerHistory.HistoryConcat | app/worker_runtime.py:98-120 | histories of consecutive stretches join: what the inner loops log is what the outer loops did |
| WorkerHistory.HistoryIsLogged | app/worker_runtime.py:98-120 | the log grows by exactly the turns of the history |
| WorkerHistory.EachTurn | app/worker_runtime.py:58-96 | every logged message was put back exactly when its own run answered with a retry, one attempt older and due that run's delay after a clock reading |
| JobMachine.BackoffBounds | app/store.py:279-293 | a delay is between 0 and max(base, cap) + 300 ms |
| JobMachine.BackoffGrows | app/store.py:285-293 | before jitter, delays do not shrink and stop at the cap |
| JobMachine.BackoffDoubles | app/store.py:279-293 | before jitter the first delay is the base and each next one twice the one before, up to the larger of base and maximum; the jitter is the digest modulo 301 |
| JobMachine.DelaysDouble | app/store_admin.py:624-671 | the delays a run answers for a job, less their jitter, begin at the base and double up to the cap |
| JobMachine.EnteredFrom | app/store.py:79-88 | the graph read backwards: from where each status is entered, and that exactly succeeded and failed are never left |
| JobMachine.FailedOverDlq | app/store.py:79-88 | every path from queued to failed ends over both dead-letter statuses, entered from running or retrying |
| JobMachine.TransitionIs | app/store_admin.py:391-427 | a transition succeeds for the same or an allowed status, and counts a retry exactly when it begins one |
| JobMachine.AnswersIff | app/store_admin.py:600-862 | each answer of a run, if and only if: retry while retries are left, failure when forced or none is left, decision for evaluations, success otherwise |
| JobMachine.FailureIsRecorded | app/store_admin.py:675-703 | the dead-letter item names the job, its tenant, and the given code or the code of the cause |
| JobMachine.CancelIsFinal | app/store_admin.py:429-460 | a job can be cancelled exactly while it is not final; then it stays failed and cancelled over any run, without a dead-letter item |
| JobMachine.JobStore.TransitionJobStatus | app/store_admin.py:391-427 | allowed transitions and no others; unknown jobs and foreign tenants are refused; retry count goes up on retrying |
| JobMachine.JobStore.CancelJob | app/store_admin.py:429-460 | cancels any job that is not final, and only that job |
| JobMachine.JobStore.RunJobOnce | app/store_admin.py:561-862 | the step-by-step method equals the run as one function of the store |
| JobMachine.JobStore.Retry | app/store_admin.py:624-671 | one more attempt with its delay while retries are left |
| JobMachine.JobStore.Fail | app/store_admin.py:675-742 | through both dead-letter statuses to failed, with the item stored before |
| JobMachine.RunKeepsInv | app/store_admin.py:391-460 | over all runs, a job failed without cancellation has exactly one dead-letter item and other jobs have none; retries stay within the maximum |
| JobMachine.TerminalStays | app/store.py:79-88 | succeeded and failed are absorbing |
| JobMachine.RetriesAreBounded | app/store_admin.py:619-673 | at most max retries answers say retrying, and their delays sum to at most that many times the longest delay |
| JobMachine.RunMirrorsUnlessRefused | app/store_admin.py:600-617 | a run keeps manifest and job status equal if and only if it is not refused for its status |
| JobMachine.RefusedRunUnsettlesManifest | app/store_admin.py:600-617 | a finished parse job whose manifest says running |
| JobMachine.ParseJobsHaveManifests | app/store_parse.py:402-461 | over any run exactly the parse jobs have a manifest |
| JobMachine.SucceededBeforeParsed | app/store_admin.py:744-862 | a run answers with an error and leaves a newly succeeded job if and only if it is a parse job that can run, no failure is forced, and its work raises after the status was written |
| JobPipelineCover.NoOrphanedJob | app/routes/internal.py:698-741 | in every state reached without losing the job's last message, a queued or retrying job has a pending event or a message, if and only if its creation was completed |
| JobPipelineCover.StepOrphansIff | app/queue_backend.py:523-611 | a step takes a waiting job's last message if and only if it is a crash within a dequeue or a requeueing nack that loses the only message not about to be acked |
| JobPipelineCover.KeptIffNoLastLoss | app/queue_backend.py:523-611 | over any run, a waiting job that was sent always has such a message if and only if no step loses its last one |
| JobPipelineSafety.RunKeepsInv | app/worker_runtime.py:58-96 | records, holdings, relays and failures are kept by every interleaving, lost messages included |
| JobPipelineSafety.FailedJobsAreInDlq | app/store_admin.py:675-742 | in every reachable state a job failed without cancellation already has its dead-letter item |
| JobPipelineSafety.PublishedWasEnqueued | app/routes/internal.py:698-741 | every published event has a delivery whose message was enqueued for it |
| JobPipelineTended.StepTendsIff | app/worker_runtime.py:58-96 | a step leaves every started job with a message in flight whose holder, if any, goes on with it, unless and only unless it raises while running and no other message tends the job |
| JobPipelineTended.StartedJobsAreTended | app/store_admin.py:561-862 | so it is in every run without such a step, crashes, duplicates and cancellations included |
| JobPipelineTended.NoJobLeftBehind | app/routes/internal.py:698-741 | in such runs every job that is neither final nor waiting for a decision, and whose last message no crash lost, has a pending event or a message, if and only if its creation was completed |
| JobPipelineDlq.ItemsAtMostMessages | app/store_admin.py:675-742 | in every run a job has at most as many dead-letter items as messages sent for it |
| JobPipelineDlq.SentOnceFailedOnce | app/store_admin.py:675-742 | a job sent at most once that failed uncancelled has exactly one item |
| JobPipelineDlq.OneItemPlusCrashes | app/routes/internal.py:698-741 | with one consumer and relays that never overlap on the job's event, at most one item plus one per relay crash, and exactly one for a job failed uncancelled without such a crash |
| JobPipelineRelay.EnqueuesAreCounted | app/routes/internal.py:698-741 | messages of an event and consumer are exactly: delivered once, plus crashes before the mark, plus redundant marks, plus relays between |
| JobPipelineRelay.StepDoublesIff | app/routes/internal.py:698-741 | within one message plus one per crash, a step goes past the bound if and only if it enqueues for an event and consumer that has its delivery mark or is about to get it from another relay |
| JobPipelineRelay.StaysWithinIff | app/routes/internal.py:698-741 | a run of any number of relays stays within the bound at every moment if and only if it has no such step |
| JobPipelineRelay.OneMessagePlusCrashes | app/routes/internal.py:698-741 | requests of which no two list the event for the consumer at once make no such step, and end within the bound |
| JobPipelineRelay.ApartRelaysSendOnce | app/routes/internal.py:698-741 | in particular when no two requests of the same tenant and consumer run at once |
| JobPipelineRelay.DeliveryIsFinal | app/store_ops.py:80-115 | the first delivery mark is never replaced |
| JobPipelineRelay.PublishedIsDone | app/routes/internal.py:698-741 | once an event is published and off all lists, no consumer ever gets another message for it |
| JobPipelineRelay.DeliveryKeyInjective | app/store_ops.py:62-64 | the stored delivery key stands for one tenant, event and consumer |
| JobPipelineRuns.RunIsItsSteps | app/store_admin.py:561-862 | undisturbed, the small steps of a worker end in the record, answer and dead-letter item of one call of `run_job_once` |
| JobPipelineLimits.AbandonedCreationOrphans | app/store_parse.py:402-461 | a creation cut before its outbox event leaves an orphaned job |
| JobPipelineLimits.OverlappingRelaysDuplicate | app/routes/internal.py:698-741 | two messages for one event and consumer, no crash |
| JobPipelineLimits.DuplicatesDoubleTheDlqItem | app/store_admin.py:683-703 | two dead-letter items for one job that was sent twice, so the bound by messages sent is reached |
| JobPipelineLimits.RaisedRunStrandsJob | app/worker_runtime.py:69-76 | a reachable running job that nothing will run again, the one case StepTendsIff excepts |
| JobPipelineLimits.LostNackOrphansJob | app/queue_backend.py:590-600 | a reachable retrying job, its event published, that nothing will run again |
| JobPipelineLimits.CancellationCanBeLost | app/store_admin.py:625-644 | a write-back overwrites a cancellation |
| JobPipelineLimits.FinalRecordLeftOnlyByStaleCopy | app/store_admin.py:391-460 | a step changes a final record if and only if it writes back a differing copy |
| StableSort.SortSorts | app/token_budget.py:60-64 | sorting orders by key and keeps the elements |
| StableSort.SortIsStable | app/token_budget.py:134-134 | equal keys keep their order |
| TokenBudget.BestAreBest | app/token_budget.py:60-65 | the up to eight kept items are in order and none left behind scores higher |
| TokenBudget.DedupByDocument | app/token_budget.py:80-106 | the loop keeps first items per document, and deferred ones only to reach two |
| TokenBudget.DedupManyDocuments | app/token_budget.py:80-106 | with two documents or more, exactly one item per document, every document, in rank order |
| TokenBudget.DedupOneDocument | app/token_budget.py:102-104 | with one document, the two best items |
| TokenBudget.DedupLength | app/token_budget.py:80-106 | at least two items stay, or all of fewer |
| TokenBudget.UndocumentedStay | app/token_budget.py:90-95 | items without a document are never taken for duplicates |
| TokenBudget.FirstsAreBest | app/token_budget.py:82-85 | the item kept for a document scores at least as high as all of that document |
| TokenBudget.TrimEvidenceToBudget | app/token_budget.py:47-76 | the loop takes exactly the longest start that the budget allows, two items at least |
| TokenBudget.TrimFits | app/token_budget.py:69-76 | in budget or down to two items, and cut only where the next item would not fit |
| TokenBudget.TrimKeeps | app/token_budget.py:47-76 | between min(2, n) and 8 of n items stay, best first |
| ReportBudget.ApplyReportBudget | app/token_budget.py:109-150 | the result is the trimmed report after a greedy cut |
| ReportBudget.RemoveLowest | app/token_budget.py:130-146 | the running total equals the tokens of the survivors, and the cut is greedy: along the order, floor respected, stopped as soon as it fits, the last removal needed |
| ReportBudget.TotalRemove | app/token_budget.py:143-145 | removing one item takes exactly its tokens off the total |
| ReportBudget.OrderIsRight | app/token_budget.py:130-134 | the removal order lists every item once, by ascending score |
| ReportBudget.ReportEndState | app/token_budget.py:109-150 | the report fits or every criterion holds at most two; each keeps between min(2, n) and 8 of its n inputs, within 6000 tokens or down to two |
| ReportBudget.SurvivorsScoreHigher | app/token_budget.py:130-150 | survivors of a criterion above the floor score at least as high as everything removed, and within a criterion survivors score at least as high as what was removed |
| ChunkText.ChunkTextBlocks | app/document_parser.py:68-134 | the loop with its local variables equals feeding the blocks to a state |
| ChunkText.TilesEveryInputIff | app/document_parser.py:68-134 | for any chunk size, chunks tile the joined text of every input if and only if 0 < overlap < 50 |
| ChunkText.DefaultsDoNotTile | app/document_parser.py:40-42 | the default sizes do not |
| ChunkText.LastEndIsExactIff | app/document_parser.py:88-134 | for each input, the last end is the length of the joined text if and only if every cut chunk was longer than a positive overlap |
| ChunkText.ChunksTile | app/document_parser.py:88-134 | then first start 0, next start previous end minus overlap, last end the length, each text the stripped range |
| ChunkText.EveryBlockIsInside | app/document_parser.py:88-134 | then each block lies whole inside some chunk |
| ChunkText.ChunkOrigins | app/document_parser.py:94-113 | then a chunk carries page and box of the block that begins right after the chunk before |
| ChunkText.DriftIsZeroIff | app/document_parser.py:102-104 | the offset error never shrinks back to zero |
| ChunkCuts.ChunksAreGreedy | app/document_parser.py:68-134 | for every input, size and overlap the cuts are the greedy ones: before exactly the blocks whose text does not fit while at least 50 characters are collected; they determine number, texts, ranges, pages and boxes of the chunks |
| ChunkCuts.GreedyIsUnique | app/document_parser.py:88-89 | there is one greedy way to cut |
| ChunkCuts.ChunksAreFull | app/document_parser.py:88-104 | every chunk but the last is at least 50 long and a later block did not fit into it; while every cut fits, that is the block right after its end |
| PythonStrings.StripIs | app/document_parser.py:84-86 | stripping takes white space off both ends and nothing else |
| PythonStrings.SpacesAre | app/document_parser.py:84-86 | white space is the twenty-nine characters of Python's str.isspace |
| AuditChain.AuditLog.Append | app/store.py:359-370 | appends the chained row; the log passes exactly if it passed before |
| AuditChain.AuditLog.Verify | app/store.py:378-411 | reports the first row that breaks the chain with its reason, or count and last hash |
| AuditChain.OneVerdict | app/store.py:378-411 | there is one such verdict, valid exactly when the chain is whole |
| AuditChain.AppendsPass | app/store.py:359-411 | any sequence of appends passes |
| AuditChain.LastHashCommits | app/store.py:352-411 | two passing logs with the same last hash are the same rows |
| AuditChain.EditIsReported | app/store.py:394-402 | a changed row is reported at its place |
| AuditChain.RemovalIsReported | app/store.py:385-393 | a removed row is reported at its place |
| AuditChain.TruncationPasses | app/store.py:403-411 | a shortened log passes, with another last hash |
| AuditChain.RowsOfAre | app/store.py:378-382 | the filtered check looks at exactly the rows that name the tenant, each once and in order |
| AuditChain.TenantPassesIff | app/store.py:378-411 | the check of a tenant passes if and only if no row of another tenant stands before one of its own |
| AuditChain.TenantVerdict | app/store.py:378-411 | on an untouched log the check of a tenant counts all its rows when they come first, and otherwise names the first of them that another's row precedes |
| ResumeTokens.ResumeStore.RegisterResumeToken | app/store_workflow.py:29-43 | replaces the token of the evaluation by an unused one |
| ResumeTokens.ResumeStore.ValidateResumeToken | app/store_workflow.py:45-71 | valid exactly when it matches, is unused and not expired; another tenant is an error |
| ResumeTokens.ResumeStore.ConsumeResumeToken | app/store_workflow.py:73-89 | marks a valid token as used, and changes nothing otherwise |
| ResumeTokens.ResumeStore.CreateResumeJob | app/store_workflow.py:91-152 | job, report, audit entry and outbox event of a resume |
| ResumeTokens.ResumeStore.ResumeEvaluation | app/routes/evaluations.py:48-108 | the request with its checks, its record lookup and its effects |
| ResumeTokens.ResumesAreBounded | app/routes/evaluations.py:73-107 | over any run from any state, the resume jobs of an evaluation grow by at most one for each token it has unused or is given |
| ResumeTokens.JobsNeverOutnumberTokens | app/routes/evaluations.py:73-107 | from the start, jobs of an evaluation are at most its announced events, and these at most its registered tokens |
| ResumeTokens.AnnouncementsAreBounded | app/store_workflow.py:132-147 | over any run, an evaluation is announced at most once per token |
| ResumeTokens.RunAnnounces | app/store_workflow.py:104-147 | over any run every job has an event of its own evaluation and every event's job exists |
| ResumeTokens.StepAnnounces | app/store_workflow.py:104-147 | each step keeps every job announced by an event of its own evaluation, and every event's job existing |
| ResumeTokens.ReplayReturnsTheFirst | app/store_admin.py:18-46 | the same request later returns the first receipt and changes nothing |
| ResumeTokens.OtherBodyConflicts | app/store_admin.py:29-38 | another body under the key is a conflict for ever and changes nothing |
| ResumeTokens.RejectedChangesNothing | app/store_admin.py:18-46 | an error changes no state; an event appears exactly on a first success |
| ResumeTokens.TokenWorksOnce | app/store_workflow.py:73-89 | after a success no request with that token changes anything until it is registered again |
| ResumeTokens.ScopeInjective | app/store_admin.py:27-27 | the record scope stands for one tenant and evaluation |
| ResumeHistory.ResumeSucceedsIff | app/routes/evaluations.py:48-108 | after any run, a request announces a job if and only if it has key and reviewer, the key is new, and the last token registered for its evaluation is the one it names, for its tenant, not older than the time to live, with no job announced since |
| ResumeHistory.ResumeErrors | app/routes/evaluations.py:55-107 | each error of a request, if and only if |
| ResumeHistory.SuccessLeaves | app/store_workflow.py:91-152 | a success leaves one job with the request's data, an event and an audit entry for it, and a report that no longer waits |
| CostBudget.CostBudgetTracker.RecordUsage | app/llm_provider.py:88-91 | adds the usage |
| CostBudget.CostBudgetTracker.CheckBudget | app/llm_provider.py:109-124 | the sticky answer is the plain classification of the total, never a warning, and blocked stays blocked |
| CostBudget.NodeScore | app/evaluation_nodes.py:192-302 | results in order for a start of the dictionaries, model calls first, then mock only or a stop; total and claims |
| CostBudget.StatusesInOrder | app/evaluation_nodes.py:226-272 | fine statuses, then degraded to the end or one blocked, never both |
| CostBudget.SpendingIsBounded | app/evaluation_nodes.py:226-279 | the total stays below the warn threshold plus the last call |
| CostBudget.StatusByShare | app/llm_provider.py:93-124 | blocked exactly beyond the hard share of the budget, degraded exactly from the warn share on, to within one token |
| CostBudget.ResultsAre | app/evaluation_nodes.py:226-272 | each result has the id of its criterion, score and pass of the model or of the mock, and no pass when a hard constraint failed |
| CostBudget.UnsupportedAre | app/evaluation_nodes.py:272-290 | a claim is unsupported exactly when its criterion wants a citation and has none that resolves |
| CircuitBreaker.FromEnv | app/tools_registry.py:44-61 | each setting is the given value, or its lower limit when that is smaller: 0 retries, threshold 1, one second |
| CircuitBreaker.ToolsRegistry.IsCircuitOpen | app/tools_registry.py:76-85 | open until the reset time has passed, then reset |
| CircuitBreaker.ToolsRegistry.RecordFailure | app/tools_registry.py:88-92 | one more failure, and open at the threshold |
| CircuitBreaker.ToolsRegistry.RecordSuccess | app/tools_registry.py:95-98 | closed and zero |
| CircuitBreaker.ToolsRegistry.ExecuteTool | app/tools_registry.py:148-245 | the retry loop equals the call as a function; other tools are untouched |
| CircuitBreaker.RunReflects | app/tools_registry.py:68-98 | the stored state is always the failure streak of the recorded history |
| CircuitBreaker.EveryRunIsBounded | app/tools_registry.py:68-98 | open exactly at the threshold, failures at most threshold plus retries |
| CircuitBreaker.InvokesIff | app/tools_registry.py:148-245 | a call invokes the tool if and only if it is let through and the history is below the threshold or old enough, at most retries plus one times |
| CircuitBreaker.OpenMeansNoInvocations | app/tools_registry.py:76-85 | no later call invokes an open tool before the reset time |
| CircuitBreaker.CallIs | app/tools_registry.py:148-245 | a call that is let through tries again after every failure that may pass, until a final outcome or the last retry; attempts, recorded failures and answer follow from it |
| CircuitBreaker.RefusalIs | app/tools_registry.py:148-175 | why a call is not let through, and that it then records nothing |
| ObjectStorage.LocalObjectStorage.PutObject | app/object_storage.py:111-142 | stores with cleared flag and fresh retention, or keeps the object in write-once mode |
| ObjectStorage.LocalObjectStorage.DeleteObject | app/object_storage.py:150-174 | refuses under hold or retention, else removes |
| ObjectStorage.LocalObjectStorage.ApplyLegalHold | app/object_storage.py:176-184 | flags an existing object |
| ObjectStorage.LocalObjectStorage.ReleaseLegalHold | app/object_storage.py:186-194 | unflags an existing object |
| LegalHold.HoldStore.FindActiveLegalHold | app/store_ops.py:264-280 | the first active hold of the key |
| LegalHold.HoldStore.CreateUpload | app/store_admin.py:80-111 | stores the upload and moves an active hold to it |
| LegalHold.HoldStore.PersistReport | app/store.py:319-349 | archives the report and moves an active hold to it |
| LegalHold.HoldStore.ImposeLegalHold | app/store_ops.py:303-365 | checks, existing hold, or a new hold that flags the object |
| LegalHold.HoldStore.ReleaseLegalHold | app/store_ops.py:378-445 | checks, two reviewers, and release of the latest object |
| LegalHold.HoldStore.ExecuteStorageCleanup | app/store_ops.py:447-535 | refuses under hold or retention, else deletes |
| LegalHoldSafety.HeldObjectsAreKept | app/store_ops.py:264-537 | in every run no object flagged under a still active hold was deleted |
| LegalHoldSafety.TrimmedRunsFlag | app/store_ops.py:303-445 | with trimmed requests a key has at most one active hold and its objects stay flagged |
| LegalHoldSafety.ImposeDuplicatesIff | app/store_ops.py:314-352 | a request makes a second active hold if and only if its four trimmed fields are not empty, its trimmed object resolves, and an active hold exists for the trimmed key but none for the key as written |
| LegalHoldSafety.SecondHoldUnflags | app/store_ops.py:314-432 | releasing the second hold unflags the object of the first |
| LegalHoldSafety.UntrimmedWitness | app/store_ops.py:314-352 | a run that gets there |
| LegalHoldSafety.ReleaseLeavesOlderFlags | app/store_ops.py:378-432 | a release whose checks pass unflags the object the hold names and no other object it covered |
| LegalHoldSafety.ReleaseClearsAllIff | app/store_ops.py:378-432 | over every run of trimmed requests, it unflags all objects the hold covered if and only if these are at most one |
| LegalHoldSafety.OlderFlagWitness | app/store_ops.py:378-432 | a run that leaves an object flagged under no active hold |
| LegalHoldSafety.CleanupRemovesIff | app/store_ops.py:447-535 | cleanup removes exactly the unprotected object of the record and nothing else |
| LegalHoldSafety.WrittenOnce | app/object_storage.py:111-128 | in write-once mode bytes never change while the object exists |
| LegalHoldRules.HoldEndsIff | app/store_ops.py:378-432 | a step ends an active hold if and only if it is a release by its tenant with a reason and two different reviewers |
| LegalHoldRules.HoldEndedByTwo | app/store_ops.py:378-432 | a hold that ended in a run was released so in it |
| LegalHoldRules.RefusedRelease | app/store_ops.py:378-418 | why a release is refused, and that it then changes nothing |
| LegalHoldRules.RetentionProtects | app/object_storage.py:111-174 | an uploaded document is still stored after any run in which time does not go back and no cleanup comes as late as its retention ends |
| LegalHoldRules.CleanedAfterRetention | app/store_ops.py:447-535 | without a hold, a cleanup removes an uploaded document exactly when its retention has ended |
| LegalHoldRules.CleanupAnswers | app/store_ops.py:447-535 | each answer of a cleanup, if and only if: an active hold first, then retention, then the flag of the object |
| LegalHoldRules.UploadLeaves | app/store_admin.py:80-111 | the record points to the stored object, and an active hold names, covers and flags it |
| LegalHoldRules.ImposeAnswers | app/store_ops.py:303-365 | the answer names an active hold on the key as written, or a new one on the trimmed key that flags the object of its record |

## Left out

- The SQLite and Postgres backends, snapshot saving and row-level security: database semantics the files do not show.
- LangGraph, language models, embeddings, vector stores, parsers, S3 and HTTP: foreign services; only outcomes and token
  usage appear, as arbitrary values.
- `run_forever` and its polling pause: it repeats `run_once` until stopped.
- Redis key registry (`_track_keys`), `pending_count`, `reset` and `list_tenants` of the Redis backend; malformed stored
  records; in `RedisQueue` the common part of a key stands for its pending and its in-flight key.
- One scan of a deque uses one reading of the clock, where the code reads it once per message.
- The manual publish, enqueue, dequeue, ack and nack routes and `requeue_dlq_item`: outside the outbox pipeline.
- In `JobPipeline` a run may raise only while its job is running; message order and due times are left open there.
- FinalRecordLeftOnlyByStaleCopy: a status transition and a cancellation count as one step each. In the code another
  write can fall between their check and their write (`app/store_admin.py:391-460`) and be overwritten as by a stale
  copy; the model has only the write-back of a copy after the transition.
- Job payloads, error texts, checkpoints, trace ids and metrics, except where a property needs them.
- `heading_path` and chunk ids: regular expressions and random identifiers without consequence for the offsets.
- Floating-point rounding of scores and thresholds; NaN scores.
- Missing citations of the whole run at the end of `node_score_with_llm`, whose order is that of a set; fallbacks inside
  the model call.
- Key collisions of cleaned path segments and of the 12-digit report digest; a report without an evaluation id is
  not archived and the model stores no address for it.
- Setting the retention of a stored object after it was stored: no modelled operation does it.
- ApplyReportBudget: the two budgets are the defaults 6000 and 24000; the environment variables that replace them are
  not modelled.
- Gate checks, rollout decisions, readiness lists and plain record keeping: they would only add easy members.
