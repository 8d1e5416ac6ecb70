# AegisIngest, verified

A Dafny model of the AegisIngest pipeline's shared-state logic, with proofs over every run of it: many requests, transactions,
workers and processes, interleaved at every await, with errors and crashes at any point.

| module | what it models |
|---|---|
| `Intake` | `create_or_get`: interleaved READ COMMITTED transactions over `documents`, with the advisory lock and the UNIQUE constraints |
| `Ingest`, `Publication`, `Answers`, `Resubmission` | `ingest_audit_report`: requests with limiter slot, token bucket, database transaction (an `Intake` state), fallback cache and broker log; what they publish and answer, what an answer says about the log, and what a resubmission is answered |
| `Lifecycle`, `Redelivery`, `Trail`, `Reconcile` | `process_event` and `ResultRepository` against the API's own updates; what late, failed and repeated deliveries leave, down to each column and event; the dashboard's totals over the reachable tables |
| `Consumer`, `Commits` | the batch consumer: semaphore, `gather`, counters and offset commits; how many unfinished records a commit can pass over |
| `Aimd`, `Smoothing`, `TokenBucket`, `Admission` | admission control over real-valued latencies and clocks: the limit, what the moving average notices, buckets, and the answers of whole histories |
| `Decimal`, `PdfText`, `PageText`, `PageTree`, `PdfFile`, `Reports` | the two PDF writers, against a reader of literal strings, streams, the cross-reference table and the trailer, the page tree and the text operators (ISO 32000-1, sections 7.3.4.2, 7.3.8, 7.5.4, 7.5.5, 7.7, 9.3 and 9.4) |
| `Storage`, `TempFiles` | content-addressed blobs and temporary files under concurrent savers, write errors and crashes |
| `LoadTest` | the timed burst's counters and percentiles and the PASS rule |
| `Pipeline`, `EndToEnd` | the endpoint and the workers over one `documents` table; and with a worker's consumer that polls the endpoint's log and calls `process_event` |
| `Metadata` | the assembled UPDATE of `update_document_metadata` |

The concurrent parts share one shape. `State` holds the shared data and where every actor stands; `Step` is total, and a step that
is not enabled, or that has to wait, changes nothing, so every sequence of actions is an interleaving and every interleaving is a
sequence of actions; `Run` folds it. The main results are statements about `Run`. Beside each step relation stands a class with the
source's fields. Its `Execute` is proved to be `Step`, and the method shaped like the source (`CreateOrGet`, `ProcessEvent`,
`IngestAuditReport`, `SaveDocument`, `ConsumeBatch`) takes what everybody else does before each of its awaits and which of its own
calls fail, and is proved to be exactly the run that interleaves its statements, in the source's order, with those steps. Whatever is
proved of every run therefore holds of every call of it.

What the proofs show that the documentation does not say:

- The loser of a same-key race raises (`Intake.SameKeyRaceRaises`, for any idle state). The endpoint then falls back to its own
  cache and publishes under a random id, so one key can reach the log twice; `Publication.KeySentTwice` is such a run. With a database,
  two answers for one key carry the same job id exactly when both requests' transactions raised or neither did
  (`Publication.AnswersAgreeIff`), and a key is sent twice exactly when both kinds of request sent for it (`Publication.SentTwiceIff`); as
  long as no transaction of the key raises, neither happens (`Publication.WithoutFallback`). Even then the key never has two results
  (`Pipeline.OneResultPerKey`).
- An answer of 200 or 202 does not promise that anything was published: `Publication.DuplicateOfNothing` is a run, with the database up,
  whose retry is answered as a duplicate of a document that was never sent. An accepted job is in the log exactly when its request's
  `send` was not offline (`Answers.AcceptedIsLoggedIff`), and a duplicate's job exactly when its owner's `send` appended
  (`Answers.DuplicateIsLoggedIff`). With a live producer, `send` returns a future, so reading its metadata raises after the append; this is
  one of the modelled outcomes.
- Two requests of one agency can be sent against their sequence (`Publication.SentOutOfOrder`); from any reachable state in order, order is
  kept exactly when no two of them are between commit and `send` (`Publication.StaysOrderedIff`).
- COMPLETED is not absorbing: `Redelivery.RowStaysIff` says exactly when a document with a result keeps its row, and
  `Redelivery.CompletedIsLeft` is a run that leaves COMPLETED. The documentation's "retried
  and ultimately marked failed" has no counterpart in the code, which re-enqueues nothing; the rule for one attempt is
  `Redelivery.AttemptFails`.
- A worker without a connection pool reports success and stores nothing (`Redelivery.PoollessStoresNothing`).
- An exception that escapes a handler lets later commits pass over unfinished records: `Consumer.EscapeLetsACommitSkip` is such a run, and
  no commit passes over more than `WORKER_CONCURRENCY - 1` (`Consumer.CommitSkipsFew`). Between two polls, the numbers a later commit
  may pass over without a further escape are exactly those below the concurrency and up to what is unfinished by then
  (`Commits.CommitSkipsExactly`); so commits are complete exactly when there is one slot or nothing unfinished
  (`Commits.CommitsSkipNothingIff`).
- From the log to the results: every record below a committed offset has its result stored, is counted as failed because its call raised or
  could not be made, or shares its batch with an escaped exception (`EndToEnd.CommittedIsTold`). A fallback record can only fail; a
  worker that has counted no failure and let no exception escape has stored the result of every record it committed
  (`EndToEnd.FaultlessStoresAll`).
- `save_document` returns its path even when the write failed (`Storage.FailedSaveIsUnreadable`); with a fresh temporary name it has
  saved exactly when no write error struck or the file was there at its check (`Storage.ContentAddressableStorage.SaveDocument`).
- The rounded Retry-After is enough in every history exactly from 20 tokens a second on (`TokenBucket.RetryAfterIsHonestIff`), and
  the rate law needs a burst of at least one (`TokenBucket.RateLawIffBurst`).
- The limiter reacts to a stretch of slow releases only once 0.9^n of the gap is used up (`Smoothing.NoticedIff`); a fresh one takes a single
  release of up to five and a half targets without a cut (`Smoothing.FreshLimiterIsCutIff`).
- The report writers have one page: a report with more than 40 findings runs off it, and a titled page with more than 34 lines
  (`Reports.ReportFitsIff`, `Reports.LinesFitIff`).
- Status keys that differ in case only are one status for the dashboard, and the last one replaces the others
  (`Reconcile.LastSpellingCounts`).
- A crash, or a clean-up that fails, leaves its temporary file for good; nothing else does (`TempFiles.TempsAreAccounted`).
- The load test counts a redirect as accepted, unlike the published classification (`LoadTest.ClassificationsAgreeIff`).

## Model

| member | source | states |
|---|---|---|
| Intake.SequencesAreGapless | api/src/repository.py:64-80 | in every interleaving, with aborts, races and lock-hash collisions, each agency's committed rows carry exactly 1..n in commit order, and no two rows share a key or an id |
| Intake.SameKeySameRecord | api/src/repository.py:67-69 | any two calls that return a record for one key return the same, committed record |
| Intake.InsertRefusedIffKeyTaken | database/init.sql:6-7 | an insertion that need not wait fails exactly when its key or id is taken, never for its sequence number |
| Intake.CheckFindsCommitted | api/src/repository.py:67-69 | whichever committed row carries its key, however many others there are, a call's check ends it with that row and changes nothing else; with a new key it goes on |
| Intake.LockWaitsIff | api/src/repository.py:70 | the advisory lock makes a call wait exactly while another call whose agency has the same lock hash is past it |
| Intake.InsertWaitsIff | database/init.sql:6-7 | an insertion waits exactly while an unfinished call has inserted its key or its id |
| Intake.SameKeyRaceRaises | api/src/repository.py:67-76 | from any idle state, a call that has missed its key before another one created it raises instead of returning the winner's record |
| Intake.SameKeyRaceAborts | api/src/repository.py:67-76 | a run from the empty tables in which that happens |
| Intake.LoneCallCreates | api/src/repository.py:64-80 | a call on a new key that nobody disturbs commits its agency's next row and nothing else |
| Intake.TwoCallsCreate | api/src/repository.py:64-80 | two such calls of one agency take consecutive numbers |
| Intake.SomeoneCanProceed | api/src/repository.py:70-73 | no deadlock: while a transaction is unfinished, some transaction can take a step, not a rollback, that takes it further, and that ends it in an exception only if its key is taken |
| Intake.MaxIsCount | api/src/repository.py:71 | over gapless rows MAX(sequence_number) is the number of the agency's rows |
| Intake.StepKeepsInv | api/src/repository.py:64-80 | every statement keeps gaplessness, uniqueness, lock ownership, reserved numbers and committed outcomes |
| Intake.DocumentRepository.Execute | api/src/repository.py:67-79 | each statement changes tables, locks and transactions exactly as its step says |
| Intake.DocumentRepository.CreateOrGet | api/src/repository.py:61-80 | under any interference, a failure at any await and a COMMIT whose answer is lost, the call is exactly the run of its statements in order, rolled back besides only while it waits; what it returns is committed; and unless its check fails it returns the row of its key exactly when one is committed by then |
| Ingest.SlotsAreConserved | api/src/main.py:174-412 | after any run of concurrent requests, through every exit, `in_flight` is the number of requests admitted and not finished, and at most the maximum |
| Ingest.ReleaseFreesOne | api/src/limiter.py:63 | the `max(0, ...)` never takes effect: a release frees exactly one slot |
| Ingest.AdmittedIff | api/src/limiter.py:50-52 | a request is admitted exactly while fewer requests than the floor of the limit hold a slot |
| Ingest.SaturatedAdmitsNobody | api/src/limiter.py:50-56 | after a cut nothing is admitted until the holders fall below the floor of the current limit |
| Ingest.LimiterIsFed | api/src/main.py:174-412 | in every run the endpoint's limiter is the limiter of `Aimd` after one `acquire` for each arrival and one `release`, with its own latency, for each request that leaves |
| Publication.PublishDiscipline | api/src/main.py:290-354 | in every run no job id is sent twice, every record is in its agency's partition, and a document's record follows its committed row and carries that row's key, agency and number |
| Publication.PublishedInOrder | api/src/main.py:292-354 | if an agency's requests do not overlap between the commit of their row and `send`, its documents stand in the log in strictly increasing sequence |
| Publication.SentOutOfOrder | api/src/main.py:290-354 | a run from the start whose log has two documents of one agency against their sequence |
| Publication.StaysOrderedIff | api/src/main.py:292-354 | from a reachable state in order, every continuation without a further commit of the agency stays in order exactly when no two of its requests are between commit and `send` |
| Publication.AnswersAgree | api/src/main.py:290-333 | answers for one effective key carry the same job id unless one is the database's and the other the cache's |
| Publication.AnswersAgreeIff | api/src/main.py:290-307 | with a database, two answers for one key carry the same job id exactly when both requests' `create_or_get` raised or neither did |
| Publication.SentOncePerKey | api/src/main.py:300-354 | at most one document and at most one fallback record per key are ever sent |
| Publication.SentTwiceIff | api/src/main.py:300-354 | with a database, a key is in the log twice exactly when a request whose `create_or_get` raised and one whose did not both sent for it |
| Publication.WithoutFallback | api/src/main.py:290-354 | with a database, as long as no `create_or_get` of a key raises, all its answers agree and it is sent at most once |
| Publication.KeySentTwice | api/src/main.py:300-354 | a run from the start whose log has a document and a fallback record of one key |
| Publication.FallbackAnswersAgree | api/src/main.py:308-333 | with no database all 200 and 202 answers for one effective key carry the same job id |
| Publication.FallbackSendsOnce | api/src/main.py:308-354 | with no database at most one record per key is sent |
| Resubmission.KeyIsTheClients | api/src/main.py:271 | in every run a parsed request has its client's key whatever its content's hash is, or that hash if there is none; so have its transaction and its records, which go to its agency's partition |
| Resubmission.SameClientKeySameJob | api/src/main.py:271-333 | two requests with one client key, however different their contents, carry the same job id: always without a database, and with one exactly when both requests' `create_or_get` raised or neither did |
| Resubmission.ResubmissionIsDuplicate | api/src/main.py:290-333 | with a database, a request with the key of a committed row that meets no exception never publishes, in any continuation, and is answered with that row's document |
| Resubmission.ResubmissionIsAnswered | api/src/main.py:290-333 | its check, its answer and its `finally` block are all it takes |
| Resubmission.CachedKeyIsDuplicate | api/src/main.py:308-333 | without a database, a request with a key that has been handed out never publishes and is answered with the job id of whoever had the key before |
| Publication.SizesAreChecked | api/src/main.py:258-263 | in every run a 413 means an oversized payload, and nothing oversized is accepted, found again or published |
| Publication.DuplicateOfNothing | api/src/main.py:290-354 | a run with the database up in which a retry is acknowledged as a duplicate although nothing was ever sent |
| Publication.LoggedIffSent | api/src/main.py:350-354 | in every run a request has a job in the log exactly when it executed a `send` for it that appended |
| Answers.AcceptedIsLoggedIff | api/src/main.py:350-412 | in every run a request answered Accepted has its job in the log, by its own `send`, exactly when that `send` was not in offline mode |
| Answers.DuplicateIsLoggedIff | api/src/main.py:294-354 | in every run the job a duplicate is answered with is in the log exactly when its owner, another request, executed a `send` for it that appended; the duplicate's request has sent nothing |
| Publication.PublishedIffOwnerSent | api/src/main.py:290-354 | in every run a job that anybody may be answered with is in the log exactly when its one owner executed a `send` for it that appended |
| Ingest.StepKeepsInv | api/src/main.py:290-354 | every step keeps: transactions match their requests, claims are backed by them, and records are genuine and one per request |
| Ingest.IngestApi.Execute | api/src/main.py:174-412 | each stretch of the endpoint between awaits changes limiter, cache, database and log exactly as its step says |
| Ingest.IngestApi.SendAuditEvent | api/src/producer.py:54-92 | one append to the agency's partition or none, by the four outcomes of `send` |
| Ingest.IngestApi.IngestAuditReport | api/src/main.py:165-412 | under any interference and an exception anywhere, the request is exactly the run of its steps up to its exit and of its `finally` block; it is turned away exactly when no slot is free as it arrives; it is about its agency, its size and its client's key or its hash; and it is throttled, too large, a duplicate, accepted or failed exactly where the code says |
| Lifecycle.EveryRunIsSafe | worker/src/repository.py:21-76 | in every interleaving of API, workers, redeliveries, errors and crashes: COMPLETED implies a result, at most one result per document, known statuses only, and the audit trail says PROCESSING_COMPLETED of exactly the documents with a result |
| Lifecycle.FirstResultStands | worker/src/repository.py:25-29 | results are never altered or removed, whatever happens later |
| Lifecycle.ReturnedLeavesResult | worker/src/processor.py:115-155 | a call that returned through a connection has left a result or found one |
| Lifecycle.CompletedLostIff | api/src/main.py:356-363 | a step takes a document out of COMPLETED exactly when it is the API's update or a write of a handler that checked before the commit |
| Redelivery.CompletedIsLeft | api/src/main.py:356-363 | a run from the empty tables that completes a document and then leaves COMPLETED |
| Redelivery.LateDeliveryIsInvisible | worker/src/processor.py:120-122 | dropping all steps of a delivery whose check comes after a committed result changes no table and no other handler |
| Redelivery.LateDeliverySucceeds | worker/src/processor.py:120-122 | such a delivery returns success as soon as its check is answered |
| Redelivery.SettledStays | worker/src/repository.py:18-76 | once a document has its result and its handlers are harmless, no number of redeliveries, errors and crashes changes its row |
| Redelivery.RowStaysIff | worker/src/processor.py:115-181 | a document with a result keeps its row in every continuation without the API's update exactly when every handler of it is harmless: before its check, over, at its last event, or about to write the failure that is there already |
| Redelivery.PoollessStoresNothing | worker/src/processor.py:26-95 | a call without a connection pool runs through, returns and changes no table |
| Redelivery.AttemptFails | worker/src/processor.py:132-181 | one attempt that fails at statement k: whether a result is left, which status and retry count remain, for every outcome of the except branch |
| Redelivery.AttemptSucceeds | worker/src/processor.py:132-155 | one attempt without failure returns, completes its document and touches no other |
| Trail.AttemptLeaves | worker/src/repository.py:21-76 | exactly the tables after each number of statements of an attempt: status, retries, worker and offset of the row, the result, and the events in order |
| Trail.FailureLeaves | worker/src/processor.py:132-181 | exactly the tables after an attempt that fails at any statement, for every outcome of the except branch |
| Trail.LateTailLeaves | api/src/main.py:356-363 | the API's late update puts a completed row back to QUEUED with its offset, and neither result nor trail say so |
| Trail.FirstAttempt | worker/src/processor.py:115-155 | from the new row, queued and unretried, one attempt leaves one completed row, one result and four events |
| Redelivery.RedeliveryIsHarmless | worker/src/processor.py:115-155 | failure-free deliveries one at a time: any sequence leaves exactly the tables that the first delivery of each document leaves |
| Lifecycle.ResultRepository.Completed | worker/src/repository.py:18-20 | true exactly when the document has a result row |
| Lifecycle.ResultRepository.Perform | worker/src/repository.py:21-76 | each statement changes the tables as stated, with its foreign key and ON CONFLICT DO NOTHING |
| Lifecycle.ResultRepository.ProcessEvent | worker/src/processor.py:115-181 | under any interference and outcomes the call is exactly the run of its statements, and returning through a connection leaves a result |
| Reconcile.TotalsAddUpIff | dashboard/src/app.py:36-51 | processing + completed + failed equals submitted exactly when every unknown status counts zero |
| Reconcile.OneStatus | dashboard/src/app.py:41-51 | into which total each status goes, in whatever case, with a count that is missing, negative or not |
| Reconcile.UpperIgnoresCase | dashboard/src/app.py:41 | the normalisation identifies exactly the keys that differ in case only |
| Reconcile.LastSpellingCounts | dashboard/src/app.py:41 | of several such keys the last one counts |
| Reconcile.TotalsOfEveryRun | dashboard/src/app.py:36-51 | in every reachable state the totals are those of the table: submitted is every document, split into processing, completed and failed |
| Reconcile.CompletedAreBacked | dashboard/src/app.py:44 | the completed total never exceeds the number of stored results |
| Pipeline.ResultsAreOfRows | worker/src/repository.py:25-29 | over every interleaving of requests, transactions and handlers every result belongs to a committed row |
| Pipeline.OneResultPerKey | database/init.sql:32-34 | over every such interleaving no two results belong to one idempotency key, however often it was submitted, sent and delivered |
| EndToEnd.CommittedIsTold | worker/src/consumer.py:134-219 | over every interleaving of requests, transactions, tasks and handlers, what lies below a committed offset is a record of the log that a task carried, and: its document's result is stored, or it is counted as failed and its call raised or could not be made, or an exception escaped in its batch |
| EndToEnd.FaultlessStoresAll | worker/src/consumer.py:157-219 | as long as no failure is counted and no exception escapes, every record below a committed offset is a document with a committed row and a stored result |
| Consumer.SlotsAreConserved | worker/src/consumer.py:130-202 | over every run and all batches permits plus running handlers is the concurrency, `active_jobs` is the running handlers, and the counters count the ends |
| Consumer.NeverClamps | worker/src/consumer.py:200 | the `max(0, ...)` on `active_jobs` never takes effect |
| Consumer.StartedIsPrefix | worker/src/consumer.py:147-151 | handlers start in the order of their records |
| Consumer.StartOvertakesFew | worker/src/consumer.py:151-153 | a starting record overtakes at most concurrency - 1 unfinished earlier records, of any batch |
| Consumer.RecordsAreInOrder | worker/src/consumer.py:147-204 | no record has two tasks, and a partition's tasks are in offset order |
| Consumer.CommitsAreAccounted | worker/src/consumer.py:206-219 | every record below a committed offset has its result, is counted as failed, or shares its batch with an escaped exception |
| Consumer.CleanRunsSkipNothing | worker/src/consumer.py:132-219 | without an escaped exception every record below a committed offset has its result row or is counted in `failed_jobs` |
| Consumer.CleanCountersAddUp | worker/src/consumer.py:180-183 | without an escaped exception processed plus failed equals the records polled whenever a batch is over |
| Consumer.CommitSkipsFew | worker/src/consumer.py:206-224 | even after escaped exceptions a commit passes over at most concurrency - 1 unfinished records |
| Commits.CommitSkipsExactly | worker/src/consumer.py:132-224 | from every reachable state between two polls, a continuation without a further escape can come to the commit of a batch with records with exactly n records unfinished, for exactly those n that are below the concurrency and at most what is unfinished in that state |
| Commits.CommitsSkipNothingIff | worker/src/consumer.py:132-224 | from such a state every such commit finds everything finished exactly when there is at most one slot or nothing is unfinished |
| Commits.CommitCoversAll | worker/src/consumer.py:219 | a commit that works puts every record polled so far, finished or not, below its partition's committed offset |
| Commits.GatherResolvesIff | worker/src/consumer.py:206-224 | in every reachable state in `gather`: it returns exactly when every task of the batch was processed or counted as failed, raises exactly when an exception escaped, and waits exactly while a task of the batch is open and none has escaped |
| Commits.TurnCanEnd | worker/src/consumer.py:132-224 | no turn has to hang: from every such state some continuation without an escape comes back to the poll, and has committed unless an exception had escaped |
| Consumer.EscapeLetsACommitSkip | worker/src/consumer.py:186-224 | a run in which that happens |
| Consumer.CommitsGrow | worker/src/consumer.py:219 | committed offsets never move back and never pass the position |
| Consumer.WorkerBatchConsumer.CreateTasks | worker/src/consumer.py:147-204 | one task per polled record, partition by partition, each queued in order |
| Consumer.WorkerBatchConsumer.ConsumeBatch | worker/src/consumer.py:134-224 | a turn of the loop is exactly: poll, handlers' steps until `gather` returns or raises, and a commit only if it returned; it commits with every task processed or counted, raises with one escaped, and is unfinished only while one is open and none has escaped |
| Consumer.WorkerBatchConsumer.ConsumeLoop | worker/src/consumer.py:129-225 | the loop is exactly the run of its turns from the start, in order, each its poll, its script's steps and its end; so it keeps the whole invariant |
| Aimd.LimitsHold | api/src/limiter.py:35-74 | over every run the limit stays between its bounds and `in_flight` between 0 and the maximum |
| Aimd.OnlyReadingsMatter | api/src/limiter.py:65-74 | limit and smoothed latency depend on the released readings alone |
| Aimd.OverloadIsNoticed | api/src/limiter.py:66-68 | after more than 9 * target / (R - target) readings of at least R the smoothed latency is above the target |
| Aimd.LimitDecays | api/src/limiter.py:73-74 | while it stays above, the limit is exactly max(min, limit * beta^k) |
| Aimd.OverloadCollapsesLimit | api/src/limiter.py:58-74 | in any run a bounded number of slow releases brings the limit down to exactly the minimum |
| Smoothing.AverageIsWeighted | api/src/limiter.py:66-68 | the smoothed latency after n readings is exactly 0.9^n of its start plus each reading at 0.1 * 0.9^k, k readings later |
| Smoothing.SmoothedIsWeighted | api/src/limiter.py:58-74 | the same for every run of the limiter |
| Smoothing.NoticedIff | api/src/limiter.py:66-71 | a stretch at one latency is noticed exactly when 0.9^n of the gap to it is less than what it is above the target |
| Smoothing.MildStretchIsUnnoticed | api/src/limiter.py:66-74 | a stretch too short or too mild for that costs nothing: the limit climbs as with fast releases |
| Smoothing.FreshLimiterClimbs | api/src/limiter.py:31-74 | from its start the limit climbs by alpha from twice the minimum as long as no release is above the target |
| Smoothing.FreshLimiterIsCutIff | api/src/limiter.py:31-74 | its first release cuts it exactly when it is more than five and a half targets long |
| Smoothing.RetryAfterIsNear | api/src/limiter.py:55-56 | the delay is one and a half smoothed latencies to the nearest hundredth of a second, and at least 50 ms |
| Aimd.CalmRestoresLimit | api/src/limiter.py:71-72 | in any run calm releases give exactly min(max, limit + k * alpha) |
| Aimd.AdaptiveConcurrencyLimiter.Acquire | api/src/limiter.py:43-56 | admits exactly below the floor of the limit, with the stated delay otherwise |
| Aimd.AdaptiveConcurrencyLimiter.Release | api/src/limiter.py:58-74 | the new state in full, of which `Smoothing.AverageIsWeighted` and the limit's laws speak |
| TokenBucket.DecisionsSurviveDropping | api/src/limiter.py:107-128 | dropping other agencies' calls and any set of refused calls changes no other decision |
| TokenBucket.InterleavedIsLone | api/src/limiter.py:107-128 | an agency's bucket in any interleaved history is that of a lone bucket fed its own calls |
| TokenBucket.RefillIsAdditive | api/src/limiter.py:117-118 | refilling in two steps is refilling in one |
| TokenBucket.TokensInRange | api/src/limiter.py:110-125 | tokens stay between 0 and the burst, whatever the clock does |
| TokenBucket.RateLawHolds | api/src/limiter.py:107-128 | over any stretch of calls and any clock readings, admissions are at most burst + rate * forward clock movement |
| TokenBucket.RateLawIffBurst | api/src/limiter.py:110-115 | that law holds for every history exactly when the burst is at least 1 |
| TokenBucket.LazyIsReference | api/src/limiter.py:117-125 | lazy refill refines a reference level defined by the admissions alone |
| TokenBucket.AdmittedIffEveryWindowFits | api/src/limiter.py:107-128 | for a clock that never steps back a call is admitted exactly when every window since an earlier admission has room for it |
| TokenBucket.UnroundedWaitSuffices | api/src/limiter.py:117-128 | at any positive rate, in every history of a non-decreasing clock, a call made the unrounded wait after a refusal is admitted if nobody else was meanwhile, whatever refused calls came in between |
| TokenBucket.RoundedWaitSufficesIff | api/src/limiter.py:126-128 | the rounded wait suffices for every refused level exactly when the rate is at least 20 |
| TokenBucket.RetryAfterIsHonest | api/src/limiter.py:117-128 | the same for the returned, rounded wait at 20 a second or more |
| TokenBucket.RetryAfterIsHonestIff | api/src/limiter.py:126-128 | the returned wait is honest in every history exactly when the rate is at least 20 |
| TokenBucket.RetrySucceedsIff | api/src/limiter.py:117-128 | a retry is admitted exactly when it has waited for the missing part of a token, if nobody else was admitted meanwhile |
| TokenBucket.RetryAfterIsNear | api/src/limiter.py:126-128 | a refusal at a positive rate returns that part's time to the nearest hundredth, and at least 50 ms |
| Admission.AnsweredIffRoom | api/src/limiter.py:107-128 | in any history of many agencies a call is answered Admitted exactly when every window since an earlier call of its agency that was answered so has room |
| Admission.FirstCallIsAdmitted | api/src/limiter.py:109-115 | an agency's first call is always answered Admitted |
| Admission.RateLawOfAnswers | api/src/limiter.py:107-128 | over every stretch of any history and any clock, an agency is answered Admitted at most burst + rate * forward clock movement times |
| TokenBucket.TokenBucketRateLimiter.CheckAgencyLimit | api/src/limiter.py:101-128 | admitted exactly on an agency's first call or with a whole token after the refill; an exception exactly on a refusal at rate zero; the agency's new bucket, other agencies untouched |
| Decimal.ReadBack | scripts/generate_sample_reports.py:117-121 | a printed numeral followed by a non-digit reads back as its number wherever it stands |
| Decimal.PaddedRoundTrip | scripts/generate_sample_reports.py:120 | a padded offset reads back, and is ten digits wide exactly below 10^10 |
| PdfText.EscapeIsPerCharacter | scripts/generate_sample_reports.py:83-84 | the three chained replaces equal one per-character escape |
| PdfText.LiteralReads | scripts/generate_sample_reports.py:103 | a literal-string reader recovers an escaped string whatever follows it |
| PdfText.ContentRoundTrip | scripts/generate_sample_reports.py:101-106 | a reader of the content stream finds exactly the operators and the lines shown, in order |
| PdfText.LineSurvivesIff | scripts/generate_sample_reports.py:106 | a line comes back unchanged exactly when it is Latin-1 text without a carriage return |
| PdfFile.ObjectsRoundTrip | scripts/generate_sample_reports.py:114-121 | a reader starting at the tail's startxref recovers every object |
| PdfFile.EntryLeadsToObject | scripts/generate_sample_reports.py:116-120 | an entry's offset leads exactly to its "i 0 obj" |
| PdfFile.StreamRoundTrip | scripts/generate_sample_reports.py:111 | whatever bytes a stream holds, its /Length alone cuts it out |
| PdfFile.EntryWidth | scripts/generate_sample_reports.py:120 | an in-use entry is 20 bytes wide exactly for offsets below 10^10 |
| PdfFile.WriteBody | scripts/generate_sample_reports.py:114-117 | the body with the offset of every object |
| PdfFile.WriteEntries | scripts/generate_sample_reports.py:120 | one entry an offset, in order |
| PdfFile.WriteObjects | scripts/generate_sample_reports.py:114-122 | for every object list, a file under 10^10 bytes reads back as exactly those objects |
| PageTree.TreeLeads | scripts/generate_sample_reports.py:107-113 | the references lead from the catalog over the page tree to the page, its parent, its content and its font |
| Reports.ReportAsPdf | scripts/generate_sample_reports.py:81-122 | a reader that goes from the tail over the page tree through the text operators finds exactly the report's lines, in order, each at its position and in its size |
| Reports.CreateSimplePdf | dashboard/src/app.py:105-131 | a reader of the dashboard's file finds the title and then the lines, in order, each at its position and in its size |
| Reports.LinesTell | scripts/generate_sample_reports.py:86-100 | where a report's fields stand among its lines, one line for each finding |
| Reports.LinesFitIff | scripts/generate_sample_reports.py:101-104 | a report's lines are on the page exactly when there are at most 50, a titled page's exactly when there are at most 34 |
| Reports.ReportFitsIff | scripts/generate_sample_reports.py:86-104 | a report fits its page exactly when it has at most 40 findings |
| Reports.LinesSurviveIff | scripts/generate_sample_reports.py:86-106 | a page shows its lines unchanged exactly when all are Latin-1 without a carriage return |
| Storage.BlobsAreIntact | api/src/storage.py:47-58 | in every run, with write errors and crashes at any step, every published file has its name's hash, so none is partial |
| Storage.BlobsNeverRevert | api/src/storage.py:51-58 | as long as no two contents saved in the run have one hash, a published file never changes or disappears |
| Storage.SavedBytesAreRead | api/src/storage.py:73-78 | after a save whose local write succeeded, reading at any later time returns bytes of that hash, and the saved bytes themselves as long as no two contents saved in the run have one hash |
| Storage.ReadableIffSaved | api/src/storage.py:50-78 | a hash is readable exactly when some call with that hash published or found its file |
| Storage.FailedSaveIsUnreadable | api/src/storage.py:55-71 | a run in which a save fails, returns all the same, and its bytes cannot be read |
| Storage.PlanOutcome | api/src/storage.py:44-64 | among any other calls, with a fresh temporary name, a call ends with its file exactly when the file was there at its check or no write error struck |
| Storage.ContentAddressableStorage.SaveDocument | api/src/storage.py:40-64 | under any interference and a write error anywhere, the call is exactly the run of its file-system calls and its clean-up; with a fresh temporary name it has saved exactly when no write error struck or the file was there at its check |
| Storage.ContentAddressableStorage.ReadDocument | api/src/storage.py:73-78 | the published bytes, or the missing-file error |
| TempFiles.TempsAreAccounted | api/src/storage.py:53-64 | in every run the temporary files are exactly those of unfinished calls and those that a crash or a failed clean-up left behind |
| TempFiles.NoTempsRemain | api/src/storage.py:53-64 | without such, none is left once every call is over |
| LoadTest.CountersAddUp | dashboard/src/app.py:451-496 | every request lands in exactly one counter and the counters sum to the requests |
| LoadTest.SortSorts | dashboard/src/app.py:516 | sorting orders the latencies and keeps how many lie below any bound |
| LoadTest.OrderStatistic | dashboard/src/app.py:527-529 | an order statistic is below a bound exactly when more readings than its index are |
| LoadTest.RunTimedBurst | dashboard/src/app.py:442-533 | the whole result in terms of the raw outcomes |
| LoadTest.CountersMean | dashboard/src/app.py:479-526 | each counter is the number of requests that ended so, by code range, timeout or transport failure |
| LoadTest.PercentilesMean | dashboard/src/app.py:516-529 | p50, p95 and p99 are the rounded readings of those ranks, in whatever order the requests ended, and missing exactly without readings |
| LoadTest.VerdictIff | dashboard/src/app.py:407-439 | a completed burst passes exactly under a condition on the raw outcomes |
| LoadTest.PassIsSound | dashboard/src/app.py:407-439 | PASS implies no 5xx, timeout or transport failure, three quarters accepted, and over 95% of the requests below 150 ms |
| LoadTest.ClassificationsAgreeIff | dashboard/src/app.py:381-393 | the burst's normalisation agrees with the published classification exactly on 200, 202 and 400 to 599 |
| Metadata.UpdateDocumentMetadata | api/src/repository.py:87-120 | whatever arguments are given, running the statement gives every row exactly those values in exactly their columns, the clock in `updated_at`, and every other column as before; `$1` is the document |
| Metadata.UpdateStatement.Add | api/src/repository.py:98-117 | one argument more: the placeholder added is that of its own parameter, and the earlier ones stand |
| Metadata.PatchedUpdates | api/src/repository.py:98-120 | patching touches exactly the given columns, since no column is written twice and none is the clock |

## Left out

- Body parsing, headers, routing, CORS, metrics, logging, health checks and configuration: plumbing; `Parse` only fixes a request's agency, key and size.
- SHA-256, `hashtext`, MurmurHash3, CRC-32 and UUIDs: uninterpreted functions; a document id that is taken is refused by the primary key, and a fallback id stands for its request.
- PostgreSQL, aiokafka and MinIO inside: each call is one atomic step that is acknowledged, refused, or takes effect while its acknowledgement is lost (a COMMIT, a worker's statement, a `send`). The pool can be absent from the start but does not appear or go away in mid-run.
- The remote copy in `save_document` and the bucket check in `start`: an exception there is an exception of the request in `Ingest`.
- Loss of data by the operating system after a rename: the code does not flush, and the model's crashes are crashes of processes.
- Floating point: latencies, clocks and tokens are real numbers; rounding to two digits is modelled where an answer depends on it.
- Publication.PublishDiscipline: is about one process's log of accepted appends; cross-process limits and duplicates are outside, since limiter and cache are per process.
- Publication.StaysOrderedIff: appends are ordered by the moment of `send`; batching and retries inside the producer are not modelled.
- Ingest.IngestApi.IngestAuditReport: the token bucket's answer, the stored bytes and the outcome of `send` are inputs of the call; `TokenBucket` and `Storage` prove those parts on their own.
- Consumer.CleanRunsSkipNothing: assumes the database up, a fixed partition assignment and a log without gaps in its offsets; that a handler succeeds only when its document has a result is a guard here and proved in `EndToEnd`.
- EndToEnd.CommittedIsTold: one worker's consumer over the log of one process, with the database up; other workers appear as their handlers, in any number. The payload is reduced to the job id.
- Consumer.WorkerBatchConsumer.ConsumeLoop: polls that raise, the lag gauge, heartbeats, `current_document_id` and `processing_rate` are not modelled, and cancellation of the loop is one step `Stop`. An answer whose partitions are all empty, which the client does not give, is excluded.
- Lifecycle.EveryRunIsSafe: a row is reduced to status, retry count, worker and offset, and the events to those the handlers write; an unusable document id raises before any statement and is not modelled.
- Three retries and then FAILED, as a property of runs: the published payload carries no retry count and nothing re-enqueues, so only the rule for one attempt is real.
- Reports.LinesFitIff: baselines only; how wide a line is, and what of it runs off to the right, is not modelled.
- Reconcile.TotalsAddUpIff: for counts that are not negative; upper-casing is ASCII.
- LoadTest.RunTimedBurst: pacing and throughput; the outcomes arrive in the order in which the requests end.
- Aimd.LimitsHold: for configurations with 0 < min, 2 * min <= max, alpha >= 0 and 0 < beta <= 1; the code accepts others, for which the initial limit alone can exceed the maximum.
- Worker registration, heartbeats, the analyzer, `send_reports`, batches, `scripts/load_test.py` and the dashboard's pages: easy members, or repeats of what is modelled.
