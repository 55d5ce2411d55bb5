# Zagforge: job protocol, rate limiter, worker pool, pagination and job tokens

A Dafny model of the concurrent core of Zagforge, with proofs. Zagforge turns webhook pushes into
indexing jobs: the API keeps a `jobs` and a `snapshots` table, workers start, run and complete the jobs,
pollers claim them, and a watchdog fails the ones that hang.

## How the model is laid out

**The job protocol, statement by statement** (`Protocol`, `Invariant`, `CommitProof`, `Preservation`,
`Guarantees`, `Timeline`). Every handler is an open PostgreSQL transaction under READ COMMITTED (section 13.2.1 of
the PostgreSQL documentation). One event is one SQL statement, one commit, one rollback or one step of a
worker outside the database, and any number of transactions interleave freely. The advisory lock, row
locks, `SKIP LOCKED`, the re-check of a `WHERE` after waiting, the two unique indexes and the status
guards are all explicit; the lock hash is an arbitrary function. `Invariant.Inv` is inductive
(`Preservation.StepKeeps`), and the theorems in `Guarantees` are about every run from empty tables. A
deployment is either http (Cloud Tasks) or poll, as `worker/cmd/main.go:87-95` selects it. Callbacks come
from executors that were handed the job, any number of times and at any moment; a success report carries the
path built from some earlier start answer, as the executor builds it.

**The same handlers, one at a time** (`Atomic`, `Database`, `Handlers`, `TaskHandler`, `Watchdog`).
`Database.Store` holds the tables and has one method per SQL statement; the service, the callbacks, the
executor and the watchdog are classes whose methods follow the source line by line and are proved against
the specifications in `Atomic`. `Sequential` connects the layers: a handler's statements back to back have
exactly its atomic effect, whatever the handler finds. `Continuations` says what can still become of a job
from a reachable state.

**The rest.** `RateLimit` (the Redis sliding window with atomic pipelines), `RateLimitPipelines` and
`RateLimitExpiry` (the same with the commands of concurrent pipelines interleaved, without and with the key's
expiry), `Runner`, `PollLoop` and `Poller` (slots, cancellation and drain; the poll loop is a machine whose
traces the poller's methods follow), `PollSteps` (each of its steps is a piece of a protocol run),
`Pagination` (cursor paging while the protocol keeps running), `Decimal` and `JobToken`.

## Where the code does less than its comments say

* *Lost push.* A push that has read a queued job which then starts updates no row, commits, and leaves no
  trace (`Anomalies.LostPush`). `Guarantees.OvertakenIff` gives the exact condition, and
  `Guarantees.PushConservation` counts such pushes.
* *Queued orphans.* The comment at `api/internal/service/job.go:134` says that the watchdog will catch jobs
  whose enqueue failed. It only touches running rows: such a job stays queued for ever
  (`Continuations.OrphanReached`, `Guarantees.OrphansStayQueued`; exactly which queued jobs can leave the
  queue, `Continuations.LeavesQueueIff`).
* *Redelivery.* The unique delivery id does not protect a queued job: a redelivered push moves its commit
  back (`Anomalies.RedeliveryRegresses`; exactly when, `Atomic.RedeliveryOverwritesIff`).
* *Unguarded write.* The poller's failure write has no status check. Within a poll deployment the harm is
  limited to the message and `finished_at` of a job that the watchdog has already failed
  (`Anomalies.TimeoutMessageOverwritten`; exactly when, `Guarantees.TerminalRowStep`).
* *Complete on a queued job.* It is accepted, and the executor uses it when its start callback fails: the
  job ends failed without `started_at` (`Anomalies.FailedUnstarted`; exactly when, `Guarantees.QueuedJobEnds`
  for any interleaving and `Handlers.FailedStartFailsQueuedJob` for one execution).
* *Snapshot conflict.* A second job for the same commit rolls back its own success and stays running
  (`Continuations.SnapshotConflict`; exactly when, `Atomic.SuccessCommitsIff` and `Continuations.SucceedsIff`).
* *Page boundaries.* Jobs of one instant that a page boundary separates are skipped
  (`Pagination.TiedJobIsSkipped`; exactly when, `Pagination.ListingCompleteIff`). Limits below 1 mean the default,
  although the comment at `shared/go/httputil/params.go:30` says they are clamped.
* *Retry-After.* For a window that is not whole seconds the header is rounded down, and waiting that long
  need not suffice (`RateLimit.RetryAfterSufficesIff`).

* *Key expiry.* A pipeline is not a transaction, so the key can expire between a check's ZADD and its EXPIRE
  and take the instant with it (`RateLimitExpiry.ExpiryExceedsPlainBound`; what still holds,
  `RateLimitExpiry.ExpiringBound`).

## Model

| member | source | states |
|---|---|---|
| Preservation.StepKeeps | api/internal/service/job.go:66-124 | One inductive invariant over rows, locks, open transactions, task queue and pollers survives every statement, commit, rollback and worker step, for any lock hash and both deployments; and no event deletes a row, moves a status back or rewrites an identity |
| Preservation.InitHolds | api/internal/db/migrations/000001_initial.up.sql:22-73 | Empty tables satisfy the invariant |
| Guarantees.RunInv | api/internal/service/job.go:66-124 | Every state of every run satisfies the invariant |
| Guarantees.RunLater | shared/go/store/jobs.sql.go:260-298 | Between any two points of a run rows, snapshots, answers, tasks and history only grow, and each row evolves: same identity, status never back, SHA fixed once it left the queue, `started_at` fixed once set |
| Guarantees.AtMostOneQueued | api/internal/service/job.go:66-124 | In every reachable state a branch has at most one queued job |
| Guarantees.JobsCarryPushes | api/internal/service/job.go:83-124 | A queued job carries the SHA of the last committed push on its branch; every job carries the SHA of the last push that created or moved it |
| Guarantees.PushConservation | api/internal/service/job.go:75-124 | Committed pushes = rows created + in-place updates + overtaken pushes |
| Guarantees.CommittedPush | api/internal/service/job.go:85-124 | A push's commit changes exactly its own job as its outcome says, no other row and no snapshot; an overtaken push changes no table |
| Guarantees.OvertakenIff | api/internal/service/job.go:75-96 | A push that read a queued job hits zero rows if and only if that job left the queue between the read and the guarded update; otherwise it moves the job |
| Guarantees.ShaAgreement | api/internal/handler/callback/complete.go:90-97 | Snapshot SHA, the SHA in its object path, the job row's SHA and the SHA of every start answer for that job, earlier or later, are equal |
| Guarantees.SnapshotsAreAnswered | api/internal/handler/callback/complete.go:90-97 | Behind every snapshot row there is an answered start of its job with the snapshot's commit |
| Guarantees.StartsAgree | api/internal/handler/callback/start.go:53-123 | Two successful starts of one job never answer with different commits, however pushes and retries interleave |
| Guarantees.SucceededIffOneSnapshot | api/internal/handler/callback/complete.go:79-111 | A job is succeeded if and only if exactly one snapshot row has its id |
| Guarantees.SucceededJobsDiffer | api/internal/db/migrations/000001_initial.up.sql:73 | No two succeeded jobs share repository, branch and commit |
| Guarantees.AtMostTwoStatusChanges | shared/go/store/types.go:16-23 | Terminal statuses are absorbing and a job changes status at most twice in a whole run |
| Guarantees.StartedOnce | shared/go/store/jobs.sql.go:291-298 | `started_at` is written at most once, and the SHA is fixed from then on |
| Guarantees.RowsWellFormed | shared/go/store/jobs.sql.go:260-298 | `finished_at` iff terminal; running and succeeded rows have `started_at`; failed rows, and only they, have a non-empty message; cancelled and superseded never occur |
| Guarantees.TerminalRowStep | worker/internal/worker/poller/poller.go:98-108 | A terminal row changes if and only if a claiming poller's failure write on it commits; that only happens in a poll deployment, to a row the watchdog has failed with its message, and changes message and `finished_at` only |
| Guarantees.HeldRunOrTimedOut | worker/internal/worker/poller/poller.go:89-108 | In every reachable state a job that a poller holds, or whose failure write is open, is running or was failed by the watchdog with its message |
| Guarantees.QueuedJobEnds | api/internal/handler/callback/complete.go:66-87 | Under any interleaving a queued job becomes terminal if and only if a completion of it commits; it is then a failure report and the job ends failed without a start time |
| Guarantees.FirstTerminalWriterWins | api/internal/handler/callback/complete.go:66-74 | In the http deployment row and snapshots stay as the first terminal writer left them, for any number of retrying workers and sweeps |
| Guarantees.LateCompleteChangesNothing | api/internal/handler/callback/complete.go:66-74 | A completion that finds a terminal job commits nothing |
| Guarantees.DeliveryLabelsOneJob | api/internal/db/migrations/000001_initial.up.sql:40-41 | A non-empty delivery id labels at most one job over the whole run |
| Guarantees.TasksNameJobsOnce | api/internal/service/job.go:122-142 | Every enqueued task names a committed job and no job is enqueued twice |
| Guarantees.NoJobClaimedTwice | shared/go/store/jobs.sql.go:14-25 | Over a whole run no two pollers hold the same claimed job, and a dispatched job is never held again |
| Guarantees.HeldJobsAreUntouched | worker/internal/worker/poller/poller.go:89-127 | Between claim and dispatch a job is running or timed out; of all open transactions only a sweep can hold or have written its row, and no claim, callback, failure write or successful push update on it is under way |
| Guarantees.HeldRowStep | worker/internal/worker/poller/poller.go:89-127 | Any step that changes the row of a claimed and not yet dispatched job is the commit of a watchdog sweep, and times the job out |
| Guarantees.OrphansStayQueued | api/internal/service/job.go:133-142 | A job whose enqueue failed stays queued in every later state of an http deployment |
| Continuations.LeavesQueueIff | api/internal/service/job.go:133-142 | From any reachable state of an http deployment a queued job can still leave the queue if and only if its task exists or its creation is still to be tried |
| Continuations.OrphanReached | api/internal/service/job.go:137-142 | A run after which a job whose enqueue failed is queued and leaves the queue in no continuation |
| Anomalies.PushOvertakenByStart | api/internal/handler/callback/start.go:81-95 | From any quiet state with a startable queued job there is an interleaving in which a push commits and the tables look as if only the start had happened |
| Anomalies.LostPush | shared/go/store/jobs.sql.go:277-279 | A run after which no job and no snapshot carries the last pushed commit |
| Anomalies.RedeliveryRegresses | api/internal/service/job.go:83-96 | A run in which a redelivery moves a queued job back to the older commit |
| Anomalies.TimeoutMessageOverwritten | worker/internal/worker/poller/poller.go:98-108 | A poll run in which the watchdog's message on a failed row is overwritten |
| Anomalies.FailedUnstarted | worker/internal/worker/executor/executor.go:36-41 | A run in which a job fails straight from the queue, never started |
| Continuations.SnapshotConflict | api/internal/db/migrations/000001_initial.up.sql:73 | A run in which a second job of a commit reports success, is rolled back, stays running and can succeed in no continuation |
| Continuations.BlockedJobNeverSucceeds | api/internal/handler/callback/complete.go:90-105 | A running job whose repository, branch and commit already have a snapshot is succeeded in no later state of the run |
| Continuations.SucceedsIff | api/internal/handler/callback/complete.go:79-111 | From any reachable state a running job can still succeed if and only if no snapshot of its repository, branch and commit exists and, in the poll deployment, it has been dispatched or a poller holds it |
| Continuations.StartedJobsHaveTasks | api/internal/handler/callback/start.go:81-95 | In the http deployment every job that has left the queue has a task |
| Atomic.RedeliveryOverwritesIff | api/internal/service/job.go:83-119 | A known delivery changes a row if and only if its branch has a queued job with another commit, and creates none |
| Atomic.SuccessCommitsIff | shared/go/store/snapshots.sql.go:108-112 | A success report on an active job leaves the tables unchanged if and only if the repository, branch and commit already have a snapshot; otherwise job and snapshot are both written |
| Sequential.AfterIsRun | api/internal/service/job.go:38-145 | Any executable list of events from empty tables is a run, so results about runs cover the back-to-back handlers |
| Sequential.PushMovesAlone | api/internal/service/job.go:66-105 | Lock, read, guarded update, commit back to back are the atomic in-place update of the oldest queued job |
| Sequential.PushMakesAlone | api/internal/service/job.go:108-124 | Lock, read, insert, commit back to back are the atomic creation of a job that is then waiting to be enqueued |
| Sequential.PushDuplicateAlone | api/internal/service/job.go:108-120 | A push without a queued job whose delivery id is taken leaves nothing behind |
| Sequential.StartAlone | api/internal/handler/callback/start.go:53-98 | A start's statements back to back are the atomic start, whether the job is queued, running, terminal or unknown; the answer is the row as read under the lock |
| Sequential.CompleteAlone | api/internal/handler/callback/complete.go:54-111 | A completion's statements back to back are its atomic effect, whether the job is active, terminal or unknown, including the rollback on a snapshot conflict |
| Sequential.ClaimAlone | shared/go/store/jobs.sql.go:14-25 | Skip-locked select and update back to back claim an oldest of the queued jobs that nobody has locked, whatever locks others hold |
| Sequential.UnlockedClaim | shared/go/store/jobs.sql.go:14-25 | When nobody holds a lock that is an oldest of all queued jobs |
| Sequential.EmptyClaimAlone | shared/go/store/jobs.sql.go:14-25 | A claim changes nothing when every queued job is locked, or none is queued |
| Sequential.SweepAlone | shared/go/store/jobs.sql.go:260-267 | The row-by-row timeout UPDATE fails exactly the overdue jobs |
| Database.Store.GetActiveJobsForBranch | shared/go/store/jobs.sql.go:83-89 | Lists each queued or running job of the branch once, oldest first |
| Database.Store.CreateJob | shared/go/store/jobs.sql.go:46-50 | Inserts a queued row with the push's fields, created now, under a new key unless the non-empty delivery id is taken |
| Database.Store.UpdateJobCommitSHA | shared/go/store/jobs.sql.go:277-279 | Moves the SHA of the job if it is queued, else nothing |
| Database.Store.UpdateJobStatus | shared/go/store/jobs.sql.go:291-298 | Writes status and message, `started_at` now when the new status is running, `finished_at` now when it is terminal, and no other field, whatever the old status |
| Database.Store.ClaimJob | shared/go/store/jobs.sql.go:14-25 | Takes some oldest queued job and makes it running, started now, or changes nothing when none is queued |
| Database.Store.TimeoutRunningJobs | shared/go/store/jobs.sql.go:260-267 | Fails exactly the jobs running for more than twenty minutes, with message and finish time, keeps every other row, and returns how many rows it changed |
| Database.Store.InsertSnapshot | shared/go/store/snapshots.sql.go:108-112 | Inserts a row under a new key unless (repository, branch, commit) is taken |
| Handlers.JobService.HandlePush | api/internal/service/job.go:38-145 | Drops unregistered repositories, else moves the oldest queued job's commit, else creates a queued row created now, else ignores a known delivery, each case with its whole table effect; enqueues exactly the created jobs, after the commit; answers an error exactly when a failing begin, statement or commit strikes, and then leaves nothing unless the commit was applied all the same |
| Handlers.CallbackHandler.Start | api/internal/handler/callback/start.go:53-99 | Queued becomes running, started now, and nothing else changes; running is answered again, terminal and unknown jobs are refused with their status; each answer exactly in its case, with the row as read; exactly when a fault is answered as an error, and whether it undoes the start |
| Handlers.CallbackHandler.Complete | api/internal/handler/callback/complete.go:54-118 | Terminal jobs are left alone and answered with their status; otherwise status, message and finish time and, on success, the snapshot row are written together or not at all, and the answer names the status the row then has; each answer exactly in its case, and which faults undo the completion |
| Handlers.Executor.Execute | worker/internal/worker/executor/executor.go:29-110 | Exactly one start and one report; success is reported exactly when start, run, read and upload all worked, after one call of each in that order for the job's commit, with the path of that commit; nothing is in the bucket that was not there before unless success is reported; the tables end as start and completion leave them |
| Handlers.ExecutionOutcome | worker/internal/worker/executor/executor.go:29-110 | Where one undisturbed execution leaves its job: succeeded iff it reported success on a free snapshot key, running iff the key was taken, failed iff it reported failure |
| Handlers.FailedStartFailsQueuedJob | worker/internal/worker/executor/executor.go:36-41 | An execution leaves its job failed without a start time if and only if the job was queued, the start request was lost and the report got through |
| TaskHandler.TaskEntry.Run | worker/internal/worker/handler/handler.go:40-91 | A task is executed exactly when its token is valid for its job and the job is found; any other answer has no effect; an executed task reports success exactly when start, run, read and upload all worked |
| Rows.SnapshotPathInjective | shared/go/storage/gcs.go:104-106 | For ids without a slash an object path determines organisation, repository and commit |
| Watchdog.WatchdogHandler.Timeout | api/internal/handler/watchdog/watchdog.go:41-57 | Fails exactly the jobs running for more than twenty minutes, with message and finish time, and reports how many rows changed; a failing query changes nothing |
| Watchdog.SweepFailsExactlyTheOverdue | shared/go/store/jobs.sql.go:260-267 | A row changes if and only if it has been running for more than twenty minutes; well-formed rows stay so, and a second sweep at the same instant does nothing |
| Watchdog.RunningTimeBound | api/internal/handler/watchdog/watchdog.go:14-57 | With sweeps at most P apart no job is ever running for more than twenty minutes plus P, in every run of atomic handlers |
| Watchdog.RunningTimeBoundAttained | api/internal/handler/watchdog/watchdog.go:14-57 | For every positive P some run does reach twenty minutes plus P |
| Watchdog.SweepClearsOverdue | shared/go/store/jobs.sql.go:260-267 | With statements interleaved in any way, a job running and overdue when a sweep scans is terminal once that sweep commits |
| Timeline.RowsChange | shared/go/store/jobs.sql.go:260-298 | In every run each change of a row is the commit of a transaction and spelled out field by field for each kind: commit moved, started, completed, failed, timed out, with the transaction's start as the time |
| Timeline.RowsAppear | shared/go/store/jobs.sql.go:46-50 | Every new row is the queued row of a committing push, created at the start of its transaction |
| Timeline.StartedAtCommit | shared/go/store/jobs.sql.go:14-25 | A job becomes running only at the commit of a start or claim of it, and `started_at` is the start of that very transaction |
| Timeline.RunningSince | shared/go/store/jobs.sql.go:291-298 | The `started_at` of every running job is the start of the transaction whose commit made it running |
| Timeline.TimedOutAfterTwentyMinutes | api/internal/handler/watchdog/watchdog.go:14-57 | Whatever interleaves, a sweep fails a job only if more than twenty minutes lie between the start of the transaction that made it running and that of the sweep |
| Timeline.SweepFailsIffTwentyMinutes | shared/go/store/jobs.sql.go:260-267 | A sweep fails a job that runs from its scan to its commit if and only if more than twenty minutes lie between those two starts; otherwise it leaves the row alone |
| RateLimit.Limiter.CheckRateLimit | api/internal/middleware/ratelimit/ratelimit.go:73-105 | Admits exactly when fewer than Max instants are left in the window, and reports the room that remains, 0 on a refusal; always adds the new instant, denied or not, and sets the expiry in whole seconds; an error exactly when the pipeline breaks off or its answer is lost, with the key as the commands so far leave it |
| RateLimit.EntryIsLog | api/internal/middleware/ratelimit/ratelimit.go:81-91 | Pruning and key expiry never lose an instant that a later check would count |
| RateLimit.RefinesPlainLog | api/internal/middleware/ratelimit/ratelimit.go:73-105 | Every decision equals that of a plain log of all requests |
| RateLimit.WindowBound | api/internal/middleware/ratelimit/ratelimit.go:71-105 | Any half-open window has at most Max distinct admitted instants |
| RateLimit.RemainingIsExact | api/internal/middleware/ratelimit/ratelimit.go:97-104 | Over the limiter's own decisions: if a request at a fresh instant reported n, exactly the next n requests at fresh instants are admitted, each reporting one less, while nothing leaves the window; a refusal reports 0, and all of them are refused |
| RateLimit.RetryAfterSufficesIff | api/internal/middleware/ratelimit/ratelimit.go:58-64 | A client that was refused and waits as long as Retry-After says is always admitted if and only if the truncated part of the window, in microseconds, is below Max |
| RateLimitPipelines.InterleavedBound | api/internal/middleware/ratelimit/ratelimit.go:79-88 | With prunes, counts and adds interleaved and c checks in flight any half-open window has at most Max + 2(c-1) distinct admitted instants |
| RateLimitPipelines.BoundIsReached | api/internal/middleware/ratelimit/ratelimit.go:79-88 | For every limit and every c, in every window of at least that many microseconds, some run does admit Max + 2(c-1) instants |
| RateLimitExpiry.ExpiringBound | api/internal/middleware/ratelimit/ratelimit.go:79-95 | With the expire command and the key's expiry interleaved too, the bound is Max + 2(c-1) as long as the key never expires while a check is in flight, and Max + 2(c-1) + c in any case, if no count comes later than time to live minus window after its clock reading |
| RateLimitExpiry.ExpiryExceedsPlainBound | api/internal/middleware/ratelimit/ratelimit.go:87-91 | A run with one check at a time and a limit of two in which the key expires between a check's add and its expire command: three instants of one window are admitted |
| RateLimit.Middleware | api/internal/middleware/ratelimit/ratelimit.go:47-66 | Refuses exactly when Redis answered and the check denied, with the window in whole seconds rounded down; otherwise passes the request on; limit and reported remaining count go with both answers if Redis answered |
| RateLimit.Serve | api/internal/middleware/ratelimit/ratelimit.go:47-105 | A whole request: refused exactly when the window already holds Max instants, and then told that 0 remain; an admitted one is told how many instants there is room for after it |
| Runner.StepCounts | shared/go/runner/runner.go:58-61 | Counter and wait group each fall exactly once per goroutine, the counter first |
| PollLoop.DispatchedIsConserved | shared/go/runner/runner.go:56-67 | Along every trace of the poll loop the counter stays within 0 and the limit, dispatched jobs = counter + executed decrements, no job is dispatched twice, and the counter exceeds the functions still running by exactly those that have returned but not decremented |
| Runner.Pool.GoWait | shared/go/runner/runner.go:56-62 | Adds one running goroutine, counted before it starts |
| Runner.Pool.Wait | shared/go/runner/runner.go:70-72 | Returns exactly when every goroutine has finished |
| Runner.Pool.Drain | shared/go/runner/runner.go:76-105 | Goes on until the first round that takes the done case with every goroutine finished, or the deadline, and then returns: nil exactly when every function has executed its decrement, else an error with the positive count still in flight |
| Poller.JobPoller.ClaimOne | worker/internal/worker/poller/poller.go:89-127 | One claim of the poll loop, with everyone else acting before the claim and again between the claim and its failure write or dispatch: an oldest queued job is dispatched once, or its repository is missing, or none is queued, or the claim's request or answer is lost; a claimed job keeps the start time of the claim, and a written failure leaves its row failed, with the message and finish time |
| Poller.JobPoller.SettleNow | worker/internal/worker/poller/poller.go:98-127 | A missing repository fails the row, whatever has become of it, with message and finish time, in no other field and no other row; without that write, and on a dispatch, no row changes |
| PollSteps.StepIsProtocol | worker/internal/worker/poller/poller.go:71-127 | Every step of the poller, lost claims included, is a piece of a run of the job protocol that arrives at the same tables, holder and dispatched jobs |
| PollSteps.FailIsProtocol | worker/internal/worker/poller/poller.go:98-108 | The poll loop's failure write is the protocol's, with the row spelled out; one that could not be sent changes no row |
| PollSteps.RunIsMoment | worker/internal/worker/poller/poller.go:46-127 | Whatever the protocol does between two steps of a poller is a moment of its poll loop |
| Poller.JobPoller.PollBatch | worker/internal/worker/poller/poller.go:71-85 | A piece of a trace of the poll loop, with pushes, callbacks, sweeps and finishing goroutines between any two operations; it dispatches at most the slots free at its start, and exactly that many or until the queue is empty unless cancelled or a claim or lookup fails; dispatched jobs = counter + executed decrements at its end |
| Poller.JobPoller.Run | worker/internal/worker/poller/poller.go:46-68 | From call to stop one trace of the poll loop, driven by exactly the moments of its script; draining claims and dispatches nothing; a clean stop means every dispatched job's function has returned |
| PollLoop.NothingBeginsAfterCancel | worker/internal/worker/poller/poller.go:71-85 | Once the context is cancelled no claim passes its check, however often the select takes the tick, and at most the one claim already past it is dispatched |
| PollLoop.CancelStopsClaims | worker/internal/worker/poller/poller.go:55-67 | The same from the cancelling moment of any trace; from the done case on nothing at all is dispatched |
| PollLoop.OneClaimSlipsThrough | worker/internal/worker/poller/poller.go:73-84 | That one claim can indeed still be dispatched |
| Pagination.ListJobsByRepo | shared/go/store/jobs.sql.go:202-208 | The newest matching rows up to the limit, newest first, all of them if there are fewer |
| Pagination.ListJobs | api/internal/handler/api/jobs.go:36-69 | A malformed repository id, a non-empty cursor that does not parse and a failing query are each answered exactly in their case; else the page, and a next cursor exactly on full pages, the creation time of the last row |
| Pagination.ParseLimit | shared/go/httputil/params.go:31-44 | Every limit text gives a limit from 1 to 100, and one that is no number the default |
| Pagination.ParseLimitOfNumber | shared/go/httputil/params.go:31-44 | Printed numbers read back clamped to 100; below one, or beyond 64 bits, they mean the default |
| Pagination.BrowsingEnds | api/internal/handler/api/jobs.go:62-66 | Following the cursor takes at most one page per listed job and one more |
| Pagination.PageCount | api/internal/handler/api/jobs.go:62-66 | N jobs with distinct times take exactly N / limit + 1 pages |
| Pagination.PagesMissExactlySplitTies | shared/go/store/jobs.sql.go:202-208 | The pages read at different states of a run list the repository's jobs at the start newest first, at most once, and miss exactly those tied with a full page's last row and not on it |
| Pagination.CompleteIffNoTieCut | shared/go/store/jobs.sql.go:202-208 | With one limit the pages over a table miss nothing if and only if no multiple of the limit falls between rows of one instant |
| Pagination.ListingCompleteIff | api/internal/handler/api/jobs.go:43-66 | The same for a client that pages while the protocol runs: complete if and only if no page boundary of the table at the start cuts a tie |
| Pagination.OneRowPages | shared/go/store/jobs.sql.go:202-208 | For pages of one row that condition is exactly distinct creation times |
| Pagination.PagesAreTheList | api/internal/handler/api/jobs.go:43-66 | With distinct times they are the full newest-first list at the start, each job exactly once, whatever happens between pages |
| Pagination.QuietStartSuffices | shared/go/httputil/params.go:55-65 | Later inserts are not older than the first cursor if at that moment no open push to the repository began before it |
| Pagination.TiedJobIsSkipped | shared/go/store/jobs.sql.go:202-208 | A run and a client: of two jobs created at one instant, with pages of one, the second is on no page |
| Decimal.ParsePrint | shared/go/jobtoken/jobtoken.go:74-92 | Every 64-bit number reads back from its decimal text |
| Decimal.PrintParse | shared/go/jobtoken/jobtoken.go:74-92 | An accepted text prints back as itself if and only if it has no plus sign, no leading zero and is not negative zero |
| JobToken.ValidateIff | shared/go/jobtoken/jobtoken.go:52-89 | Not invalid exactly for tokens that the current or previous key signs for this job and some 64-bit expiry; nil exactly when that expiry has not passed |
| JobToken.NonCanonicalExpiryRefused | shared/go/jobtoken/jobtoken.go:74-82 | Expiries that are not printed as %d prints them are refused |
| JobToken.PayloadInjective | shared/go/jobtoken/jobtoken.go:91-92 | A payload determines job id and expiry even when job ids contain colons |
| JobToken.Lifetime | shared/go/jobtoken/jobtoken.go:43-46 | A token holds for its whole ttl and less than a second more |
| JobToken.TokenBinds | shared/go/jobtoken/jobtoken.go:91-97 | Without MAC collisions a token determines key, job and expiry |
| JobToken.AcceptedForItsJobOnly | shared/go/jobtoken/jobtoken.go:52-64 | A signer accepts another's token exactly for the job it was signed for and when it knows the key |
| JobToken.TokensLiveTwoGenerations | shared/go/jobtoken/jobtoken.go:36-64 | Along a run of rotations to new keys a token is accepted in exactly its own and the next generation |

## Left out

- Mixed deployments, with poll and http workers on one database: the unguarded failure write could then overwrite a succeeded job. The two deployments are proved separately.
- That every queued job eventually runs: it is false for orphans, and liveness is not modelled.
- That snapshot content belongs to the recorded commit: the clone checks out the branch head (`shared/go/provider/github/client.go:146`).
- That the latest snapshot is of the newest commit: two jobs of one branch may run at once and finish in either order; `GetLatestSnapshot` is not modelled.
- Guarantees.FirstTerminalWriterWins: states the http deployment only, because in the poll deployment the message of a failed row can be overwritten; what can change there is `Guarantees.TerminalRowStep`.
- Watchdog.RunningTimeBound: is about atomic handlers; with interleaved statements a start can commit long after its `started_at`, and the counterparts there are `Watchdog.SweepClearsOverdue` and `Timeline.SweepFailsIffTwentyMinutes`.
- RateLimitPipelines.InterleavedBound: is about prune, count and add; with the key's expiry it holds as `RateLimitExpiry.ExpiringBound` says, and not always.
- RateLimitExpiry.ExpiringBound: says nothing about counts that come later than time to live minus window after their check read the clock.
- RateLimitPipelines.BoundIsReached: needs a window of at least Max + 2(c-1) microseconds; a shorter one has fewer instants than that.
- RateLimit.RefinesPlainLog: is about checks whose pipelines all complete; a key that a broken pipeline left without a new expiry may lose instants early.
- JobToken.TokenBinds: assumes a MAC without collisions and with colon-free output; HMAC-SHA256 itself and hex encoding are not modelled.
- Pagination.PagesAreTheList: the cursor text is an arbitrary lossless encoding of microseconds; RFC 3339 formatting itself is not modelled.
- Poller.JobPoller.Run: the script decides everything others do; claim times are one reading of the clock, and the executor's calls inside a goroutine are modelled in `Handlers.Executor`.
- Unregistered repositories are modelled in `Handlers.JobService.HandlePush` only; the statement-level pushes are to registered ones.
- The `updated_at` trigger, and the version, size and zigzag columns of snapshots: written and never read by the modelled code.
- `MarkJobSuperseded` and the cancelled status: no modelled code path reaches them.
- Scores of the sorted set are exact integers; microsecond counts above 2^53 are not modelled.
- HTTP routing, JSON, CORS, Clerk and shared-secret authentication, the GitHub client, cloning, the zigzag process, Cloud Tasks and bucket transport: each call is a step that may succeed or fail.
- The message texts of failed executions are shortened to their prefixes; only that they are non-empty matters.
- The order in which rows with equal `created_at` are listed or claimed: any order is allowed.
