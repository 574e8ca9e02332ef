# Verification of the mail backup pipeline

The pipeline copies Gmail messages to Google Drive. A job is a row of `pipeline_jobs`; Redis holds only job IDs, in
`queue:<stage>` lists and in one `processing:<stage>:<worker>` list per worker. A worker pops an ID, claims the row with
one conditional UPDATE, runs the handler of its stage, settles the row and acks the ID. A sweeper repairs what crashes
leave behind. This project models that protocol, the upload walk with its folder cache, the producers, the MIME walk, the
rate limiter and the backoff in Dafny 4.11, and proves what the design promises of them.
`dafny verify dfyconfig.toml` checks everything.

## How the model is laid out

- `types`, `table`, `lists`, `drive`: job rows and the SQL statements on them, Redis lists and the commands on them, a Drive
  as a map from (parent, name).
- `store`, `queue`, `worker`, `sweeper`, `handlers`, `backfill`, `scheduler`, `ratelimit`, `mime`: the program's objects and
  loops as classes and methods. Each method's contract gives its whole effect through the functions above, or states the
  property outright. `imports` and `enqueueing` say what producers do to the table and the lists while others go on.
  `ordering` says in which order a queue gives out its tokens, `journey` follows an email from its parts to its folder.
- `protocol`: the same calls as a step relation. Every database call, Redis call, handler write, crash (`Stop`), heartbeat
  expiry (`Lapse`), Redis loss (`Wipe`) and clock tick is one step of one of any number of workers, of the sweeper or of any
  number of producers, and steps interleave freely, over one folder cache and the Drives of all users. A run is any sequence
  of enabled steps. `refinement`, `looping`, `handlersteps`, `sweeping` and `producing` show that an undisturbed `ProcessOne`,
  the loop of `Run`, what the handlers write, an undisturbed sweep, and what a producer does about a message are such runs.
- `history`, `promotions`: what each column of a row tells about the run so far, and what the sweeper pushes and when.
- `rows`, `stages`, `failstop`, `mutex`, `accounting`, `conservation`, `delivery`, `delivered`: what holds in every run.
- `limits`: runs without heartbeats that break mutual exclusion and bring back a done job; `races`: a run in which a message
  gets two rows; `misled`, `misdelivery`: runs in which a done job is not delivered, and exactly when there are any.
  `traces` and `passes` build such runs.
- `recovery`, `drain`, `completion`: what one sweep repairs, that draining ends, and that rounds of both finish every job.
  `interleaving`, `shifts`: the same when the steps of all workers interleave.
- `paths`, `cleaning`, `upload`, `cachelimits`: `path.Join` and what it promises, the cached folder walk, its agreement with
  the walk without a cache, and for which folder chains that holds.

## Hypotheses

Each theorem names the hypotheses it needs through a `Hypotheses` value (`timing`, `replies`, `redis`); most need fewer
than all.

- H1: a worker between claim and settle has its heartbeat key. H2: no heartbeat key lapses between `ListRunningJobs` and
  the last liveness check of the same pass. (`timing`)
- H3: a call that returns an error had no effect. Without it a call may also have been executed with its answer lost.
  (`replies`)
- H4: worker IDs are never reused and there is one sweeper. This is part of every run.
- `redis`: Redis loses nothing.

The SQL checks less than one might think. `ClaimExactly` says that a claim looks at nothing but the status, so a stale token
can hand a row to a worker of another stage, or before its `next_run_at`. The sweeper keeps a retry back until its delay has
passed, see `RetryWaits`, but nothing else does. Nor need stages move forward: `StageBackExactly` says when one moves back.
`FinalChangesExactly` says which statements change a done or dead row; only H1 to H4 keep them away, and `DoneComesBack` is a
run in which a done job is queued again. `FailStopExactly`, `ExclusionExactly`, `SecondRowExactly` and `PolledExactly` are of
the same kind: the property holds exactly when one named event does not happen.

Where the documentation and the code differ, the code is modelled: docs/ARCHITECTURE.md section 6.4 adds eight delays
1 + 2 + ... + 128 for a job that keeps failing, while the code schedules seven, 2 + 4 + ... + 128, each times its jitter,
because the eighth failure ends the job. Section 6.3 promises one worker per job unconditionally, and says that nothing within
the design breaks it. `TwoWorkersOneJob` is a run that does: no hand-edited rows, no lost answers, only a worker without a
heartbeat key that the sweeper takes for dead. `ExclusionExactly` says that this is the only way: in any run at all, each
busy worker owns its row throughout exactly when the sweeper never marks a row that a worker holds. H1 to H4 rule that out.
The comment at internal/backfill/full.go:31-35 calls the check before the insert idempotent. `TwoRowsOneMessage` is a run,
with honest replies and no Redis loss, in which a message gets two rows: another producer inserts it after the check, and that
job is done before our insert.

The upload handler identifies folders by their cache path, and `path.Join` gives different chains one path. `TwoSenders` is a
run with two emails of one subject and minute from a/b@x and a//b@x: the second job is done, and the folder that its meta file
names does not exist. (internal/handler/paths.go:38-45 cleans the subject of an email and not the sender's address.) So done
means delivered only for chains whose beginnings have different cache paths, and `DeliversExactly` says that this is the
condition: for any set of chains, all runs over them deliver if and only if no two beginnings have one path. Names that
`path.Join` leaves alone (not empty, not "." or "..", no slash) are safe, see `PlainNamesDeliver`.

## Modelling choices

UUIDs are numbers and never repeat; a token is a parsed UUID or other text. Times are nanoseconds on one clock, reals in the
rate limiter. The default of `max_attempts` is 8, and the theorems hold for rows with any value of at least 1. The sweep
methods run at one instant with any pattern of failing calls; their interleaving with workers and the clock is in the step
relation. A SCAN of the processing keys is one listing. Drive's list-then-create calls are atomic. A handler's answer is any
failure, or the successor its stage names.

An upload step is one folder of the chain (cache lookup, find or create, cache entry) or one file; entries of the cache may
expire at each step, and each of its reads and writes may fail. Render names the same folder chain and attachments each time
it renders a message, and no folder is called email.pdf, in a chain or in a user's Drive at the start.

During a producer's run, the other processes may change the table in any way its constraints allow and issue any list
commands, at every message before its check and again between check and insert, and at every poll of the wait. What happens
between an insert and its push is the same as happening around the two.

## Model

| member | source | states |
|---|---|---|
| Completion.WholeRunCompletes | internal/worker/worker.go:62-121 | from any table at rest and any tokens, stale or duplicate, max_attempts rounds of an error-free sweep past all horizons and a drain leave every row done or dead, whatever the handlers return |
| Completion.RoundMoves | internal/sweeper/sweeper.go:50-146 | one round ends a row or strictly raises its attempts |
| Completion.RoundsExist | internal/sweeper/sweeper.go:50-146 | from any table at rest and any Redis content there are such rounds, any number of them |
| Shifts.ShiftsComplete | internal/worker/worker.go:36-121 | the same in a run of protocol steps, with the steps of any number of workers interleaving in any order and producers adding jobs meanwhile: max_attempts shifts of one error-free sweep and a drain are a run, and end every row there was |
| Shifts.ShiftMoves | internal/worker/worker.go:62-121 | one such shift ends a row or strictly raises its attempts |
| Shifts.ShiftsExist | internal/worker/worker.go:36-121 | with a worker for every stage there are such runs, under any hypotheses |
| Interleaving.InterleavedQuiescence | internal/worker/worker.go:62-121 | however the workers' steps interleave: once no token waits and all workers are idle, every row that had a token is done, dead, or queued with last_error and more attempts |
| Interleaving.InterleavedBound | internal/worker/worker.go:62-121 | workers on their own come to rest: apart from handler writes, heartbeats and looks at empty queues, a run has no more steps than the weight of its tokens |
| Recovery.OneSweepRecovers | internal/sweeper/sweeper.go:50-146 | after any run at all, with all heartbeats gone and the clock past the horizons, one error-free sweep leaves no processing entry, no running row, and a token in the right queue for every queued row |
| Recovery.SweepRepairs | internal/sweeper/sweeper.go:92-146 | from any valid table and any Redis content: exactly the running rows without a beating owner change, and stop running; beating workers keep their rows and their processing lists, the other lists are empty, and every queued row has a token |
| Mutex.MutualExclusion | docs/ARCHITECTURE.md:511-517 | under H1 to H4, two workers between claim and settle of one job are the same worker, and it is the recorded owner of the running row |
| Mutex.DoneIsFinal | internal/store/store.go:75-110 | under H1 to H4, a done or dead row of a reachable state never changes again |
| Mutex.ExclusiveStep | internal/sweeper/sweeper.go:92-116 | every step of a worker, the sweeper's separate list, check and mark steps, and every producer step keeps the exclusion invariant |
| Mutex.BusyOwnsExactly | internal/sweeper/sweeper.go:92-116 | with no hypothesis, a step keeps every busy worker the owner of its row if and only if it is not the sweeper marking a row that some worker holds |
| Mutex.ExclusionExactly | docs/ARCHITECTURE.md:511-517 | with no hypothesis, every busy worker owns its row throughout a run if and only if the sweeper never marks a row that some worker holds |
| Limits.TwoWorkersOneJob | docs/ARCHITECTURE.md:511-517 | a run from nothing, with honest replies and no Redis loss, that ends with two workers between claim and settle of one job |
| Limits.DoneComesBack | internal/store/store.go:91-110 | such a run, continued, in which a job that is done is queued again |
| Mutex.SettleNeverTrips | internal/store/migrations/0002_users_oauth_sync_processed.up.sql:38-40 | in an exclusive state no settle can be refused by the unique index |
| Mutex.ClaimExactly | internal/store/store.go:57-73 | an answered claim succeeds exactly on queued rows, whatever their stage and next_run_at |
| Mutex.FinalChangesExactly | internal/store/store.go:75-110 | with no hypothesis, a step changes a done or dead row exactly when it is a failure update the index lets through or the completion of a dead row |
| Stages.StageBackExactly | internal/store/store.go:158-172 | in any reachable state, a step moves a job back to an earlier stage if and only if a fetch worker's advance takes effect on a row that is at upload |
| FailStop.ReachableFailStop | internal/worker/worker.go:44-59 | under H3 alone, a worker between ProcessOne calls owns no running row, and no worker owns two |
| FailStop.FailStopExactly | internal/worker/worker.go:90-120 | a step keeps the fail-stop invariant if and only if it is not a claim that took effect although its caller saw an error |
| Rows.ReachableRows | internal/store/store.go:27-110 | in every run: live rows have attempts left, dead rows have none, running rows have an owner, queued rows have none, and a message has at most one live row |
| History.RowIsItsHistory | internal/store/store.go:27-172 | in every run, with no hypothesis: attempts count the failures of a job, last_error and next_run_at are those of the last one, the stage is the one last advanced to, the owner the last to claim it unless it was handed on or failed since, the status that of the last write, and the other columns never change; every claim finds the row queued, every advance finds it running |
| History.DiesAtEight | internal/store/migrations/0001_init.up.sql:8 | a job that a producer inserts goes dead at its eighth failure and not before, whatever else happens to it, and last_error is the message of its last failure |
| Promotions.PromotedWasDue | internal/store/store.go:126-139 | in every run, what the sweeper pushes as a retry is the token of a row that was queued, had failed, and whose next_run_at had come when the pass listed it, and goes to the queue of its stage |
| Promotions.RepushedWasStale | internal/store/store.go:176-191 | what it pushes as stale is the token of a row that was queued, had never failed and was older than the threshold when listed |
| Promotions.RetryWaits | internal/worker/backoff.go:9-19 | a retry the sweeper pushes has waited: the last failure of its job was returned by a handler at least three quarters of min(2^a, 600) seconds before the listing, where a counts the attempts its worker had read and the one that failed, unless the sweeper itself wrote that failure for a dead worker |
| Accounting.ClaimAccounting | internal/store/store.go:57-110 | under H1 to H4, claims = attempts + advances + (1 if done) + (1 if running), and handler runs never exceed max_attempts + advances |
| Conservation.TokenConservation | internal/queue/queue.go:32-82 | without Redis loss, each token was pushed as often as it lies in some list plus as often as it was acked |
| Delivered.DoneMeansDelivered | internal/handler/upload.go:52-133 | in every run, a done mail job has its mime, pdf and meta files written, and demo and mail tokens never mix; if no two beginnings of one user's chains share a cache path, email.pdf and every attachment its meta file names are in the folder it names, however the uploads of all workers interleave and whatever the cache does |
| Delivered.PlacedStep | internal/handler/upload.go:94-131 | every step, those of interleaving uploads included, keeps the cache right about the chains in use and every upload where its chain leads |
| Delivered.PlainNamesDeliver | internal/handler/paths.go:38-45 | if all names are plain, every done mail job is delivered |
| Delivered.CacheIsInvisible | internal/handler/upload.go:94-111 | under the same condition, the same run with every read of the cache failing is a run too, and ends in the same state but for the cache |
| Misdelivery.DeliversExactly | internal/handler/upload.go:94-133 | for any set of chains: in every run whose meta files name chains of the set all done jobs are delivered, if and only if no two beginnings of these chains have the same cache path |
| Misdelivery.Misdelivers | internal/handler/upload.go:94-111 | for any two chains with such beginnings, a run in which a job with one of them is done and its folder does not exist |
| Misdelivery.TwoSenders | internal/handler/paths.go:38-45 | that run for two emails whose senders differ only in the number of slashes |
| Delivery.CertifiedStep | internal/handler/render.go:38-104 | every step keeps the certificate that ties a row's stage and status to the files written |
| Refinement.PassIsSteps | internal/worker/worker.go:62-121 | an undisturbed ProcessOne is a run of enabled protocol steps, handler writes included, that ends with its table, its lists, its worker idle or down, and with what the handler's writes leave, for any answers of its calls |
| Looping.LoopIsSteps | internal/worker/worker.go:36-60 | the loop of Run, over any calls, is a run of its worker's protocol steps that ends with Run's table and lists and with the worker down if Run returned errPostClaim and, in a context that is not cancelled, only then |
| Looping.LoopStopsExactly | internal/worker/worker.go:44-59 | the loop stops with the first pass that returns errPostClaim, or any error once the context is cancelled, and returns errPostClaim exactly if that pass did in a context that was not |
| Looping.LoopLeavesNothing | internal/worker/worker.go:44-59 | a loop that is not cancelled and does not return errPostClaim leaves its worker no running row that it did not have before, unless the answer to a claim was lost |
| Refinement.CanSucceed | internal/handler/upload.go:46-134 | a handler that finds its inputs has writes after which it may return success |
| HandlerSteps.UploadHandlerIsSteps | internal/handler/upload.go:94-131 | what UploadHandler.Process leaves in the Drive and in the cache, cut off anywhere and under any expiry and cache failures, is what as many upload steps leave; when it answers success, so may the worker |
| HandlerSteps.RenderHandlerIsSteps | internal/handler/render.go:66-104 | the PDF and the meta file as the two writes of a render |
| HandlerSteps.FetchHandlerIsSteps | internal/handler/fetch.go:32-66 | the mime file as the one write of a fetch |
| Sweeping.SweepIsSteps | internal/sweeper/sweeper.go:50-146 | a sweep with any failing calls is a run of the sweeper's protocol steps, from rest to rest, that changes the table and the lists as SweepOnce does and nothing else |
| Drain.PassLowersTotal | internal/worker/worker.go:62-121 | a pass that does work and whose ack takes effect strictly lowers the weighted number of tokens, whatever the handler returns |
| Drain.PassLowersQueues | internal/worker/worker.go:62-121 | even with failing calls, a pass that does work strictly lowers the weight of the queues |
| Drain.DrainBound | internal/worker/worker.go:62-121 | no drain takes more passes than the weight it starts with |
| Drain.Quiescence | internal/worker/worker.go:95-120 | once the queues are empty, every row that had a token is done, dead, or queued with last_error and more attempts |
| Processing.PassLeavesNothing | internal/worker/worker.go:90-120 | a pass that returns to the loop leaves its worker no new running row |
| Worker.Worker.ProcessOne | internal/worker/worker.go:62-121 | pop, claim, read, handle, settle, push and the deferred ack, for any answers of the calls |
| Worker.Worker.HandleToken | internal/worker/worker.go:77-121 | what happens between the pop and the ack, and which failures are post-claim |
| Worker.Worker.Run | internal/worker/worker.go:36-60 | the loop goes on after any error but a post-claim one |
| Sweeper.Sweeper.SweepOnce | internal/sweeper/sweeper.go:50-64 | the four passes in order, for any failing calls, with or without effect |
| Sweeper.Sweeper.ReclaimProcessing | internal/sweeper/sweeper.go:66-90 | the lists of workers without a heartbeat are moved back, the others are left alone |
| Sweeper.Sweeper.ReviveOrphans | internal/sweeper/sweeper.go:92-116 | exactly the running rows whose owner is found dead are marked failed, retryable now |
| Sweeper.Sweeper.PromoteDelayed | internal/sweeper/sweeper.go:133-146 | a token more in the queue of its stage for each queued row with last_error set and next_run_at not after now whose push is not refused, and for no other row |
| Sweeper.Sweeper.RepushStale | internal/sweeper/sweeper.go:118-131 | a token more in the queue of its stage for each queued row that never failed and was created before now minus the threshold, whose push is not refused, and for no other row |
| Store.Store.EnqueueJob | internal/store/store.go:27-53 | one insert with a fresh ID, refused exactly when a live row of the message exists |
| Store.Store.ClaimJob | internal/store/store.go:57-73 | the conditional claim, with lost and refused answers |
| Store.Store.MarkDone | internal/store/store.go:75-89 | the completion, with no check of status or owner |
| Store.Store.MarkFailed | internal/store/store.go:91-110 | the failure: attempts, dead or queued, owner cleared |
| Store.Store.AdvanceJob | internal/store/store.go:158-172 | the advance of a running row, which keeps last_error and attempts |
| Store.Store.HasJobForMessage | internal/store/gmail_sync.go:66-77 | true exactly when a row of the message exists in any status |
| Store.Store.ListRunningJobs | internal/store/store.go:112-124 | each running row once, and nothing else |
| Store.Store.ListReadyRetryJobs | internal/store/store.go:126-139 | each due retry once, and nothing else |
| Store.Store.ListStaleQueuedJobs | internal/store/store.go:176-191 | each stale queued row that never failed once, and nothing else |
| Table.SaveKeepsIndex | internal/store/migrations/0002_users_oauth_sync_processed.up.sql:38-40 | ending a row or moving it between live states cannot trip the unique index |
| Keys.ParseInvertsKey | internal/queue/queue.go:28-30 | a processing key reads back as the stage and worker it was built from if and only if the stage has no colon |
| Queue.Queue.ListProcessing | internal/queue/queue.go:89-109 | every non-empty processing list is listed once |
| Queue.Queue.ReclaimProcessing | internal/queue/queue.go:111-123 | ends with the moved tokens reversed at the tail of the queue, and returns how many moves were answered; with no failing call that is the whole list |
| RedisLists.ReversedAt | internal/queue/queue.go:111-123 | reversal, position by position |
| Queue.Queue.BlockingPop | internal/queue/queue.go:39-48 | the oldest token moves to the head of the worker's processing list, whether or not the answer arrives |
| Queue.Queue.Ack | internal/queue/queue.go:77-82 | one occurrence of the token leaves the processing list |
| Ordering.FirstInFirstOut | internal/queue/queue.go:32-48 | unless something is reclaimed to it, what workers take from a queue and what still waits in it are what waited before and what has been pushed since, in this order |
| Ordering.ReclaimedFirst | internal/queue/queue.go:111-123 | what is reclaimed is popped before everything that waited |
| Ordering.AckTakesNearest | internal/queue/queue.go:77-82 | of several occurrences the one nearest the head goes, and only that one |
| Backoff.TotalBackoff | internal/worker/backoff.go:9-19 | the delays before a job with max_attempts = m goes dead sum to at most 1.25(2^m - 2) s for m up to 10 and 1.25(1022 + 600(m - 10)) s beyond |
| Backoff.DelayBounds | internal/worker/backoff.go:9-19 | each delay lies between 1.5 s and 750 s |
| Backoff.DelayExactly | internal/worker/backoff.go:9-19 | the delay after attempt k is min(2^k, 600) seconds times the jitter, to within a nanosecond |
| CachedWalk.CacheAgreement | internal/handler/upload.go:94-111 | over any sequence of uploads by any users one after the other, into folder chains with different paths, cut off anywhere, with any expiry and cache failures, every Drive is what it would be without the cache; `CacheIsInvisible` covers uploads that interleave |
| CachedWalk.CachedResume | internal/handler/upload.go:94-131 | an upload stopped after any step and run again leaves the tree of one uninterrupted run without a cache; a further run changes nothing |
| CachedWalk.CacheOkSet | internal/drive/cache.go:21-39 | an entry written for a chain can only be read back for that chain |
| CacheLimits.AgreesExactly | internal/handler/upload.go:94-111 | for any set of users' chains closed under beginnings: every sequence of uploads along them, from empty Drives and an empty cache, agrees with the uncached walk if and only if no two chains of one user have the same path |
| CacheLimits.ScratchAgreesExactly | internal/handler/upload.go:94-111 | one walk along any chain, from an empty Drive and an empty cache, agrees with the uncached one if and only if the paths of its beginnings are pairwise different |
| CacheLimits.SlashMisleads | internal/handler/paths.go:38-45 | of two chains that differ only in the number of slashes inside the last name, the second ends in the folder of the first, and its own is never created |
| CacheLimits.DotsMislead | internal/handler/upload.go:84-111 | with the root path "a/../a" the cached walk goes on from the wrong folder |
| FolderPaths.PathInjective | internal/handler/upload.go:95-100 | different chains of plain names have different cache paths |
| Cleaning.CleanMeans | internal/handler/upload.go:95-100 | a cleaned path is in normal form, is rooted exactly if the path is, and leads where the path leads, in any system of directories |
| Cleaning.JoinMeans | internal/handler/upload.go:95-100 | two joined paths lead where the second one does from where the first one does |
| Drive.ResumeDelivers | internal/drive/client.go:55-94 | find-or-create stopped after any number of operations and run again gives the tree of one run, IDs included |
| Handlers.Client.EnsureFolder | internal/drive/client.go:55-74 | list before create: an existing folder is reused |
| Handlers.Client.Upload | internal/drive/client.go:76-94 | list before create: an existing entry of the name suppresses the upload |
| Handlers.UploadHandler.Process | internal/handler/upload.go:46-134 | for any cache behaviour and any point of failure: exactly the steps that took effect, and success if and only if all files were read and nothing failed |
| Handlers.CutOffIsSteps | internal/handler/upload.go:94-131 | an upload cut off anywhere is the upload after the number of steps that took effect |
| Handlers.AttachmentsDelivered | internal/handler/render.go:58-64 | rendered and uploaded into a new folder, email.pdf is there as itself, and every attachment is there with its own content if and only if no two stored names clash with different content |
| Journey.EmailArrives | internal/handler/render.go:38-104 | parsed, rendered and uploaded with the cache in front, an email is in the folder that its own date, subject and sender name: email.pdf as rendered, and each part to be stored as a file under its sanitized name with its content, if and only if no two of these clash |
| Journey.MetaCarries | internal/handler/render.go:83-91 | the meta file carries date (or the time the job was made), subject, sender and attachment names from the email to the folder names that upload makes of them |
| Handlers.RenderHandler.Process | internal/handler/render.go:38-104 | attachments, then pdf, then meta, up to the point of failure; success if and only if all were written |
| Handlers.FetchHandler.Process | internal/handler/fetch.go:32-66 | render is named exactly when the mime file was written |
| Backfill.FullBackfill.RunFull | internal/backfill/full.go:36-84 | whatever other processes do to the table and the lists and wherever it stops: its rows are for listed messages that were unknown, one for each; the lists are what its pushes and the others' commands make them, in some order of the two; each of its rows but perhaps the last has one token pushed; and queue:fetch is no longer than it was or than the limit plus the largest page, plus what the others have added. Without an error all listed messages have rows, each row it inserted has its token, enqueued is their number and enqueued + skipped that of the listed IDs; with no other producer for the user, enqueued is the number of listed messages without a prior row. If no call fails, it stops early only while the queue is too long |
| Backfill.FullBackfill.RunPage | internal/backfill/full.go:63-79 | one page of it, from the state the pages before it left |
| Backfill.FullBackfill.WaitForQueueDepth | internal/backfill/full.go:86-102 | polls until the first poll that fails, finds the queue short enough, or is the last before the context is cancelled, and answers accordingly; the lists are what the others have made of them until then |
| Enqueueing.EnqueueOne | internal/backfill/full.go:104-130 | check, insert, push, with anything happening to the table and the lists in between, and any call failing: at most one row, inserted only if all rows of the message have ended, and its token unless a call fails; it is a second row exactly if there is one already |
| Producing.EnqueueIsSteps | internal/backfill/full.go:104-130 | what EnqueueOne leaves, whichever call fails, is what the producer's protocol steps leave, with any run of the others between check and insert |
| Producing.OfferIsSteps | internal/scheduler/scheduler.go:108-131 | what the scheduler does about a message, whichever call fails, is what the insert and the push of a producer leave |
| Imports.SecondRowExactly | internal/store/migrations/0002_users_oauth_sync_processed.up.sql:38-40 | an insert goes through if and only if every row of its message has ended, and makes a second row if and only if moreover there is one |
| Imports.CheckedTooEarly | internal/backfill/full.go:104-119 | a producer that found a message unknown can insert it when its rows have all ended meanwhile, and the message has two rows |
| Races.TwoRowsOneMessage | internal/backfill/full.go:104-119 | a run from nothing, with honest replies and no Redis loss, in which a message gets two rows |
| Races.PassAdvances | internal/worker/worker.go:62-121 | where the only token waiting is that of a queued mail job, some run of an idle worker of its stage brings the job one stage further, or to its end after upload |
| Imports.StopAndRerun | internal/backfill/full.go:31-35 | stopped anywhere, workers going on meanwhile, and run again, without other producers: the messages of one full run, each new one with a single row, inserted by one of the two runs |
| Imports.RerunAddsNothing | internal/backfill/full.go:31-35 | a run after completion inserts no row and counts no new message, whatever other producers do |
| Backfill.SafetyBackfill.RunUser | internal/backfill/backfill.go:78-127 | whatever other processes do: every message of which no call failed has a row afterwards; the lists are what its pushes and the others' commands make them, and each row it inserted has one token pushed unless a call about its message failed; each of its rows is for a message that was unknown, one for each; without failures and other producers enqueued counts the new messages and skipped the rest |
| Backfill.SilentReplay | internal/backfill/backfill.go:78-127 | if the others leave the lists alone, queue:fetch has gained exactly the tokens of the pushes, and no other list has changed |
| SchedulerPoll.Scheduler.PollUser | internal/scheduler/scheduler.go:74-133 | whatever other processes do between the inserts: every listed message is offered to the table and each insert that succeeds is pushed, and the new cursor is saved whatever failed before; each of the calls about the cursor may fail |
| SchedulerPoll.PolledExactly | internal/scheduler/scheduler.go:108-131 | a polled message has a row afterwards if and only if it had one, or some insert for it was not refused, or another producer inserted it meanwhile |
| SchedulerPoll.PolledLive | internal/scheduler/scheduler.go:108-131 | if the others neither insert nor end rows of the message, it has a live row afterwards if and only if it had one or some insert for it was not refused |
| SchedulerPoll.PolledLists | internal/scheduler/scheduler.go:121 | if the others leave the lists alone, a poll makes queue:fetch longer at its head by exactly the tokens of the rows whose insert was answered and whose push was not refused, newest first, and changes no other list |
| RateLimit.TokenBucket.Allow | internal/api/ratelimit.go:35-58 | one call, as one step of a run of the bucket specification |
| RateLimit.RateBound | internal/api/ratelimit.go:35-58 | in any run, the calls of a key let through in a window of length L number at most burst + L/interval |
| RateLimit.BurstExact | internal/api/ratelimit.go:44-58 | of any calls at one instant on a fresh key exactly the first burst are let through |
| RateLimit.RefilledExactly | internal/api/ratelimit.go:44-58 | of any calls at one instant on a known key exactly as many are let through as there are whole tokens, those left over and one for each interval since it was last seen, but at most the burst |
| RateLimit.SilentGetsBurst | internal/api/ratelimit.go:46-50 | a key that has been silent for burst intervals gets its whole burst |
| RateLimit.TokensInRange | internal/api/ratelimit.go:44-58 | tokens stay between 0 and burst |
| RateLimit.KeysIndependent | internal/api/ratelimit.go:40-44 | a key sees the decisions it would see alone |
| RateLimit.StutterFree | internal/api/ratelimit.go:45-56 | deleting a rejected call from a run changes no other decision |
| RateLimit.WaitedEnough | internal/api/ratelimit.go:44-58 | a key that has been silent for one interval is let through |
| RateLimit.BoundNeedsBurst | internal/api/ratelimit.go:40-44 | the bound and the range hold of a first call if and only if burst is at least 1 |
| Mime.WalkPart | internal/handler/mime.go:64-145 | the recursive walk that fills in the shared message is the left fold over the preorder leaves, ended by the first bad one |
| Mime.ParseMeaning | internal/handler/mime.go:33-145 | stated of the parts in preorder and their header fields: parsing succeeds if and only if every part it looks at can be used; then the attachments are those of the parts disposed as attachments or named, in order, each with its name, type and content; HTML and text are each the first body of their content type that is not empty, a missing or malformed type counting as text/plain; subject, sender and date are kept |
| Mime.ParseMessage | internal/handler/mime.go:33-62 | all the content, or nothing if the walk failed |

## Left out

- Network clients and libraries (Postgres and Redis drivers, Gmail, Drive and PDF service calls, OAuth refresh, token
  encryption): their answers are parameters, and each call is one atomic step.
- `cmd`, the router, the dashboard, metrics, HTML, Kubernetes files and scripts: wiring and display.
- Columns that nothing decides on: `payload`, `claimed_at`, `completed_at`, `updated_at`. Deleting a user, which sets
  `user_id` to NULL on its rows, is not a step.
- The goroutine of the heartbeat loop and the TTL of its key: a beat and a lapse may happen at any time.
- Drive's list and create as two calls, so that two uploads race for one folder; edits of Drive from outside.
- How folder and file names are made from dates, subjects and attachment names, and Drive query escaping: the folder chain
  and the sanitized names are parameters.
- MIME boundary scanning, header parsing and transfer decoding: the walk starts from a part tree with decoded bodies.
- The cleanup of old files under the data directory: the delivery theorem says that files were written.
- That the scheduler loses no message: it saves its cursor after a refused insert, see `PolledExactly`.
- Floating point: the backoff and the token bucket are computed exactly.
- Drive.ResumeDelivers: states nothing about the file contents of two emails that share a folder, because the code does not
  keep them apart.
- Sweeping.SweepIsSteps: gives one run for each table, lists and failures, not one for each order the listings may come in.
- Shifts.ShiftsComplete: lets no worker crash and no sweep run beside the workers during its shifts; recovery from crashes is
  `OneSweepRecovers`.
- CachedWalk.CacheAgreement: assumes chains whose paths differ, because otherwise it fails, see `AgreesExactly`.
- Delivered.DoneMeansDelivered: promises the folder only for chains whose beginnings have different cache paths, because
  otherwise it fails, see `DeliversExactly`; and that the files are there by name, not from which of two emails with one and
  the same chain they come.
- Looping.LoopIsSteps: says nothing of other processes acting between the calls of the loop; what holds whatever they do is
  stated of every run, see `ReachableFailStop`.
- Journey.EmailArrives: assumes that the email's folder did not exist, because otherwise files of the same names stay.
- Backfill.FullBackfill.RunFull: does not promise that a message has one row only while other producers work for the same
  user, because that is false, see `TwoRowsOneMessage`.
- RateLimit.RateBound: assumes a burst of at least 1, because a first call is always let through.
