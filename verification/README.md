# Verified model of the notification server

The server registers users, generates one story per user with an AI service and e-mails the user when
the story is ready. This project models its three stateful parts in Dafny and proves what they keep in
every run, including runs in which any call to Redis or to the database fails, takes effect without its
reply arriving, or is the last thing a goroutine does.

**The job pipeline.** `Jobs`, `Worker` and `Stage` describe one stage (a Redis stream with its consumer
group, the retry set, the dead-letter stream, the status table, any number of workers and schedulers) as a
transition system with one step per Redis or SQL operation; `Pipeline` joins the story stage to the email
stage. `NoLoss` and `Records` hold for every run. `Multiplicity` counts what n schedulers make of a job,
`Tightness` shows that the counts are reached, and `SchedulerFaults` draws the exact conditions on the number
of schedulers and on what may go wrong with them. `UniqueCopy` treats re-enqueues as atomic and `OneScheduler`
proves that a single scheduler's two calls are as good as that. `StageBudget` counts the executions over both
stages and `TwoStages` reaches that count. The imperative side (`RedisTask.Task`,
`Completion.JobCompletion`, `WorkerPool.Pool`, `Scheduler.SchedulerWorkPool`) is the code as it is written,
with its loops and early returns. Each call states outright what it leaves for every combination of
outcomes, and `WorkerPool.RoundIsPath` and `Scheduler.CallIsPath` show that every round of a worker and every
call of `ReEnqueue` is a path of the transition system, with the outcomes of its own calls in order, so the
theorems about runs cover them. `Gaps` states exactly when the code departs from what its parts suggest.

**The rate limiter.** `TokenBucket` proves over real numbers that two stored numbers stand for the whole
history of requests and grant as much as any admissible policy; `RateLimiter` adds keys, expiry and clocks
that disagree.

**The account tables.** `Otp` (one-time passwords), `RefreshTokens` and `Sessions` (logins and refreshes),
`Accounts` and `Registrar` (registration and verification), `Stories` and `StoryService` (scheduling and
uploading stories) are transition systems over the SQL tables and Redis hashes with any number of calls in
flight, together with the calls as they are written. `OtpBudget` proves that the account machine, seen from one
address, is the one-time-password machine. `Fates` and the end of `Stories` say, for every
reachable state, exactly what can still become of a user and of an address.

What the proofs found:

- Nothing is lost before it succeeds, in any run. After it has succeeded as a story, one failed
  acknowledgement or deletion loses that message's notification for good (`Gaps.LostByOneFailure`); only
  another copy of the job could still send one.
- The repository's README says a job goes to the dead-letter queue after exceeding its retries. In the code
  the worker loop has no `continue` after `SendToDQL`, so a dead-lettered job is also retried, until the
  backoff panics at 33. The parameter `exclusiveDlq` of `Worker.Config` chooses between the two (the code is
  `false`); theorems that need one of them say so, all others hold for both (`Gaps.DeadLetterRetriedExactly`).
- `ReEnqueue` appends and removes in two calls, and each scheduler that fetched an entry appends it. Three
  events make it append again and again, with a single scheduler too: an XADD that takes effect without its
  reply arriving, a ZREM without effect (its result is not looked at), and a death between the two
  (`SchedulerFaults.Unbounded`). All other failures of a scheduler are harmless: an XADD that fails cleanly, a
  lost reply of ZREM, a death before the append. In runs without the three events, whatever the workers do, n
  schedulers make up to n^k copies of a job k levels above its submission and run it up to 1 + n + ... + n^cap
  times as a story, and n^cap times more over both stages; these numbers are reached
  (`StageBudget.ExecutionsBounded`, `TwoStages.BothBudgetsReached`).
- A copy is delivered at most once if and only if there is no scheduler, or nothing is ever retried, or there
  is one scheduler and none of the three events can happen (`SchedulerFaults.DeliversOnceExactly`); a job keeps
  to MaxJobRetry + 1 executions under the condition of `SchedulerFaults.BudgetConditions`.
- The limiter's keys expire by Redis' clock, its tokens flow by the callers'. Where the two disagree an address
  can get one capacity more for every expiry (`RateLimiter.AddressBounded`, `RateLimiter.LapseCosts`).
- Refresh-token rotation is one-time if the token is issued once and the user's calls did not overlap until
  the revoke (`RefreshTokens.RotationIsOneTime`). A refresh in the second in which its token was issued hands
  out the same token again (`RefreshTokens.SameSecondKeepsTheToken`), and a login that lands between the check
  and the revoke of a refresh keeps the used token (`RefreshTokens.OverlapKeepsTheUsedToken`);
  `RefreshTokens.ReturnsExactly` gives the condition for every state.
- A user carries the data of the registration whose password was verified, unless a user of that address
  was deleted in between (`Fates.DeletionMixesRegistrations`).
- A registration, verification or story schedule that stops half-way cannot be repeated: the address stays
  shut out, the user never gets preferences, or never gets a story. `Fates.AdmittedExactly`,
  `Fates.PreferencesComeExactly` and `Stories.JobComesExactly` say exactly when that is so.
- A registration whose password cannot be saved or mailed answers with neither a message nor an error
  (`Registrar.Registered.Nothing`), and a refresh for a missing user panics while it logs
  (`Sessions.Refreshed.Panicked`).

An `Outcome` is what one call to Redis or the database does: `Done`, `Refused` (it fails cleanly) or
`ReplyLost` (it takes effect, the caller sees an error). Clock readings, random draws and the answers of
hashing, mail and AI services are parameters.

Preconditions taken from the deployment: stream and queue names differ, and each configured retry queue is
`"retry_"` followed by its stream.

Check everything with `dafny verify dfyconfig.toml`.

## Model

| member | source | states |
|---|---|---|
| `Backoff.NoOverflow` | internal/infrastructure/utils/backoff.go:8-12 | for 0 to 32 retries the 64-bit product is the mathematical one and positive |
| `Backoff.DelayRange` | internal/infrastructure/utils/backoff.go:8-18 | the delay lies in [0, 5 min], below 2^(retry+1) seconds up to retry 7, and is exactly 5 min from retry 8 to 32 |
| `Backoff.EveryDelayPossible` | internal/infrastructure/utils/backoff.go:17 | every delay below the doubled bound is drawn for some random source |
| `Backoff.NoPanicExactly` | internal/infrastructure/utils/backoff.go:12-17 | up to 33 retries the draw panics if and only if the count is not between 0 and 32 |
| `Jobs.Stream.FirstFrom` | internal/infrastructure/repository/redis/redis_job_queue.go:72-78 | the entry delivered next is the earliest one still stored at or after the group's position |
| `Jobs.LastStatusWins` | internal/infrastructure/repository/postgres/user_postgres.go:339-379 | of two status updates for one job the last decides, whichever rows match |
| `Jobs.OtherStatusesStay` | internal/infrastructure/repository/postgres/user_postgres.go:339-379 | status updates for jobs that share no row may come in either order |
| `NoLoss.NoJobIsLost` | internal/usecase/job_completion.go:166-224 | in every run of one stage every added job is in flight, due for retry, dead-lettered or was executed successfully |
| `NoLoss.StepKeepsInv` | internal/infrastructure/repository/redis/redis_job_queue.go:174-221 | every step keeps the two facts behind it: a worker past ScheduleRetry left a higher copy, a scheduler between append and removal left an equal one or there is a higher retry |
| `Pipeline.NoJobIsLost` | internal/infrastructure/queue/streams_consumers.go:93-127 | the same for both stages joined: no story job and no notification is lost before it succeeds |
| `Pipeline.RetryCountsRecordFailures` | internal/usecase/job_completion.go:177-178 | a copy at level k, wherever it is stored in either stage, has a failed execution behind it at every level below k |
| `Pipeline.DeadLettersAreFailures` | internal/infrastructure/queue/streams_consumers.go:119-121 | dead letters have exactly MaxJobRetry retries and per job never outnumber its failed executions at that level, with duplicated copies too |
| `Pipeline.StatusesAgreeWithHistory` | internal/usecase/job_completion.go:93-110 | completed, failed and processing rows each imply the notification, dead letter, retry or sent e-mail they claim |
| `Pipeline.EmailsNeverOutnumberSuccesses` | internal/usecase/story_executer.go:63-72 | notifications <= successful story executions <= inserted email_jobs rows, in every run |
| `Pipeline.OneRowPerSuccess` | internal/usecase/story_executer.go:63-72 | while no user is deleted, email_jobs rows = successful story executions + lost replies of SaveEmailJob; so one row per success exactly if no reply was lost |
| `OneScheduler.CallIsAtomic` | internal/infrastructure/repository/redis/redis_job_queue.go:174-221 | a call of ReEnqueue that nobody disturbs leaves the very state that atomic moves of its batch leave |
| `OneScheduler.StepShows` | internal/infrastructure/repository/redis/redis_job_queue.go:214-218 | with one scheduler, whose XADD is never applied without its reply, whose ZREM is always applied and who does not die between the two, every step of the code, workers interleaved, is a step with atomic re-enqueues or none, once the entry between its append and its removal counts as removed; clean failures, lost replies of ZREM and deaths before an append included |
| `OneScheduler.OneLiveCopy` | internal/infrastructure/queue/streams_consumers.go:93-127 | with one scheduler per stage and none of these three events, each job is at one place of its stage at most, each copy is delivered once and each stage dead-letters a job once, fall-through included |
| `StageBudget.ExecutionsBounded` | internal/infrastructure/queue/streams_consumers.go:93-127 | with n schedulers per stage and none of the three events, a job is executed at most 1 + n + ... + n^cap times as a story and n^cap times more over both stages (with n = 1: cap + 1 and cap + 2); the cap is MaxJobRetry when dead letters end the job and 32 otherwise |
| `StageBudget.SubmittedBySuccess` | internal/usecase/job_completion.go:72-101 | of each copy there are no more e-mail jobs than successful executions of exactly that copy as a story |
| `TwoStages.BothBudgetsReached` | internal/infrastructure/queue/streams_consumers.go:93-127 | for every n some such run executes a job that often over both stages |
| `Records.StepKeepsInv` | internal/infrastructure/queue/streams_consumers.go:116-126 | every step keeps all copies explained by failures, dead letters and notifications traced to their messages, and status rows true |
| `Records.DeadLettersCounted` | internal/infrastructure/queue/streams_consumers.go:119-121 | the dead letters of one job come from that many different failed deliveries |
| `Multiplicity.StepKeepsInv` | internal/infrastructure/repository/redis/redis_job_queue.go:174-221 | with n schedulers and none of the three events, every step keeps, for every copy: copies appended, appends pending and fetches still allowed are at most its submissions and n for each failure one level below that is done with |
| `Multiplicity.CopiesAtLevel` | internal/infrastructure/repository/redis/redis_job_queue.go:195-219 | then there are at most n^k copies of a job k levels above its one submission |
| `Multiplicity.DeliveriesBounded` | internal/infrastructure/queue/streams_consumers.go:119-125 | then a job submitted once is delivered at most 1 + n + ... + n^(cap - its retry count) times |
| `Multiplicity.MeasureFalls` | internal/infrastructure/queue/streams_consumers.go:104-126 | under the same hypotheses a full tree per submission less the deliveries so far is a measure: never negative, one less after every read, unchanged by every other step but a submission |
| `Tightness.BudgetIsReached` | internal/infrastructure/queue/streams_consumers.go:119-125 | for every n some run of the code's own steps with n schedulers, in which no call of theirs fails, executes a job 1 + n + ... + n^cap times |
| `SchedulerFaults.Unbounded` | internal/infrastructure/repository/redis/redis_job_queue.go:214-218 | where any one of the three events can happen, one scheduler is enough to execute a job any number of times, at one retry count |
| `SchedulerFaults.BudgetKeptExactly` | internal/infrastructure/queue/streams_consumers.go:119-124 | in all runs with n schedulers and these events, MaxJobRetry + 1 executions are the limit if and only if no event can multiply a retry (no scheduler, no retries, or none of the three events) and 1 + n + ... + n^cap is no more |
| `SchedulerFaults.BudgetConditions` | internal/infrastructure/queue/streams_consumers.go:119-124 | that is: without schedulers, MaxJobRetry >= 0; with one and none of the events, dead letters end the job and MaxJobRetry >= 0, or MaxJobRetry >= 32; with more and none of the events, dead letters end the job and MaxJobRetry = 0, or MaxJobRetry exceeds the full tree; with one of the events, dead letters end the job and MaxJobRetry = 0 |
| `SchedulerFaults.DeliversOnceExactly` | internal/infrastructure/repository/redis/redis_job_queue.go:214-218 | in all runs with n schedulers and these events no copy is delivered twice, if and only if n = 0, or nothing is ever retried, or n = 1 and none of the three events can happen |
| `Tightness.DeliveredTwice` | internal/infrastructure/repository/redis/redis_job_queue.go:214-218 | from the empty stage, two schedulers that fetch one retry before either removes it deliver it twice, no call failing |
| `Gaps.NotifiedExactly` | internal/usecase/job_completion.go:72-101 | a success appends its notification if and only if Ack and Delete reported success and the append took effect |
| `Gaps.UnnotifiedForever` | internal/usecase/job_completion.go:72-101 | a success whose worker is gone without notifying is never notified in any later run |
| `Gaps.LostByOneFailure` | internal/usecase/job_completion.go:72-91 | one failed Ack or Delete after a success loses that notification in every later run |
| `Gaps.DeadLetterRetriedExactly` | internal/infrastructure/queue/streams_consumers.go:119-124 | for every failing execution at MaxJobRetry and all outcomes of its handling: the dead letter is written exactly if its append took effect, and a retry is added exactly if the branch falls through, the ZADD took effect and the backoff did not panic |
| `Gaps.NotEarly` | internal/infrastructure/repository/redis/redis_job_queue.go:150-182 | in every run what a scheduler fetches was scheduled by a step of that run, and is fetched later than the clock of the latest such step plus its delay minus one second |
| `Gaps.NotLate` | internal/infrastructure/repository/redis/redis_job_queue.go:150-182 | in every run what is in the retry set is due from the end of the delay of its latest scheduling on |
| `RetryOrder.RangeSize` | internal/infrastructure/repository/redis/redis_job_queue.go:178-182 | the query answers all due payloads up to the limit of ten |
| `RetryOrder.RangeUnique` | internal/infrastructure/repository/redis/redis_job_queue.go:178-182 | the first due payloads in (score, member) order are determined by the set |
| `RetryOrder.RangeIsBatch` | internal/infrastructure/repository/redis/redis_job_queue.go:195-212 | what is fetched from encoded jobs decodes, and the decoded jobs are the due entries the transition system fetches |
| `RedisTask.Task.Add` | internal/infrastructure/repository/redis/redis_job_queue.go:40-68 | appends the job to this stream and changes no other |
| `RedisTask.Task.Read` | internal/infrastructure/repository/redis/redis_job_queue.go:70-131 | delivers the earliest new entry, which becomes pending and stays stored; the group moves past it, so delivered ones never come again |
| `RedisTask.Task.Ack` | internal/infrastructure/repository/redis/redis_job_queue.go:133-139 | the entry is no longer pending; which entries are stored, and all else, is as before |
| `RedisTask.Task.Delete` | internal/infrastructure/repository/redis/redis_job_queue.go:141-147 | the entry is no longer stored, every other entry is; log, position and pending entries are as before |
| `RedisTask.Task.ScheduleRetry` | internal/infrastructure/repository/redis/redis_job_queue.go:149-172 | the encoded job gets, under "retry_" and the stream, the score of the second its backoff ends, no earlier and no later, overwriting an equal member; a panic changes nothing |
| `RedisTask.Task.ZRangeByScore` | internal/infrastructure/repository/redis/redis_job_queue.go:178-182 | the loop returns exactly the first due payloads in (score, member) order |
| `RedisTask.Task.MovePayloads` | internal/infrastructure/repository/redis/redis_job_queue.go:195-219 | stopping at index i it appended exactly the first i payloads and removed those whose ZREM took effect |
| `RedisTask.Task.ReEnqueue` | internal/infrastructure/repository/redis/redis_job_queue.go:174-221 | moves the first due payloads, leaves everything not due and every other key alone, and never reports a decode error |
| `Scheduler.SchedulerWorkPool.OneTick` | internal/infrastructure/queue/scheduler_consumer.go:83-97 | one tick moves what ReEnqueue moves on the pool's queue and stream, whatever fails; a clean one takes ten of what was due by any earlier time, or all of it |
| `Scheduler.SchedulerWorkPool.Run` | internal/infrastructure/queue/scheduler_consumer.go:72-98 | whatever fails, entries not due stay, the loop goes on, and every clean tick takes its ten of what was due from the start; if no call fails, the d entries due by some time are gone after exactly ceil(d/10) ticks from then on, whatever the clock shows at each and however much becomes due meanwhile, a tick reports no message only once they are gone (exactly then, if nothing else becomes due), and each entry gone was appended once |
| `RetryOrder.EarliestFirst` | internal/infrastructure/repository/redis/redis_job_queue.go:178-186 | of what was due by an earlier time the answer holds as many as fit, however much has become due since |
| `Scheduler.CallIsPath` | internal/infrastructure/repository/redis/redis_job_queue.go:174-221 | a call of ReEnqueue is a path with the outcomes of its own calls in order: one fetch of the payloads, then a move per XADD and per ZREM, a failing last XADD included; it leaves stream and sorted set as the call does |
| `Completion.StatusTable.Update` | internal/infrastructure/repository/postgres/user_postgres.go:339-379 | an update changes exactly the matching rows and is an error when there is none |
| `Completion.JobCompletion.OnFailure` | internal/usecase/job_completion.go:166-282 | after every combination of outcomes: the retry one level up is scheduled for the second its backoff ends, then the message is acknowledged, deleted and its row set to processing, each only if the calls before reported success; a panicking backoff changes nothing; as the worker automaton does |
| `Completion.JobCompletion.OnSuccess` | internal/usecase/job_completion.go:61-164 | after every combination of outcomes: the message is acknowledged and deleted, then the notification is appended (first stage only) and the row set to completed, each only if the calls before reported success; no other message, retry or dead letter changes; as the automaton does |
| `Completion.JobCompletion.SendToDQL` | internal/usecase/job_completion.go:284-398 | after every combination of outcomes: the dead letter is appended, then the message is acknowledged, deleted and its row set to failed, each only if the calls before reported success; nothing else changes; as the automaton does before it falls through or not |
| `WorkerPool.Pool.Execute` | internal/usecase/story_executer.go:38-72 | the executer's calls run in order and the first error ends them, as in the automaton |
| `WorkerPool.Pool.OneRound` | internal/infrastructure/queue/streams_consumers.go:104-126 | one iteration, for every outcome of every call: a success notifies, a failure schedules the retry one level up (at MaxJobRetry the dead letter is written as well, and the retry depends on the fall-through), and exactly when the message is acknowledged, deleted and its row updated |
| `WorkerPool.Pool.Run` | internal/infrastructure/queue/streams_consumers.go:93-127 | the loop does its iterations in order; a panic ends the goroutine and nothing follows |
| `WorkerPool.RoundsCompose` | internal/infrastructure/queue/streams_consumers.go:93-127 | the loop's specification is a round after the other: one round is a round, two runs of rounds are one, nothing follows a panic |
| `WorkerPool.RoundIsPath` | internal/infrastructure/queue/streams_consumers.go:104-126 | every round is a path of the transition system with the outcomes of its own calls in order: the read, the execution up to its first error, SendToDQL exactly for a failure at MaxJobRetry, then OnFailure or OnSuccess |
| `TokenBucket.TokensAreLeastRoom` | internal/adapters/http/middleware/rate_limiter.go:118-132 | before request j the tokens equal the least room of all windows ending at j |
| `TokenBucket.DeniedOnlyIfFull` | internal/adapters/http/middleware/rate_limiter.go:128-132 | a denied request would have broken some window |
| `TokenBucket.WindowsKept` | internal/adapters/http/middleware/rate_limiter.go:128-132 | a granted request keeps every window ending at it within its allowance |
| `TokenBucket.AnyWindowKept` | internal/adapters/http/middleware/rate_limiter.go:118-132 | no window of any run exceeds capacity plus rate times its length |
| `TokenBucket.GrantsMost` | internal/adapters/http/middleware/rate_limiter.go:115-137 | at every prefix the bucket has granted at least as many requests as any selection that keeps all windows |
| `TokenBucket.OwnChoiceAdmissible` | internal/adapters/http/middleware/rate_limiter.go:115-137 | the bucket's own grants are such a selection, so the bound is tight |
| `RateLimiter.KeysApart` | internal/adapters/http/middleware/rate_limiter.go:97-100 | the two key families are injective and disjoint |
| `RateLimiter.RedisRateLimiter.AllowRequest` | internal/adapters/http/middleware/rate_limiter.go:104-137 | the script answers and leaves what the bucket of this address says, and no other address changes |
| `RateLimiter.RedisRateLimiter.Serve` | internal/adapters/http/middleware/rate_limiter.go:104-137 | interleaved requests, whatever the callers' clocks and Redis' clock show and whichever replies are lost, are each answered as if the address were alone |
| `RateLimiter.OneClockAnswers` | internal/adapters/http/middleware/rate_limiter.go:104-137 | under one clock, if an idle lifetime fills the bucket, each is answered as by the address's own bucket whose keys never expire |
| `RateLimiter.UnnoticedFromAnyBucket` | internal/adapters/http/middleware/rate_limiter.go:118-135 | from every bucket with a non-negative value, reached by a run or not, expiry goes unnoticed if and only if an idle lifetime fills the bucket |
| `RateLimiter.TokensInRange` | internal/adapters/http/middleware/rate_limiter.go:118-131 | what a script stores stays in [0, capacity], in every order of the readings and with any expiries |
| `RateLimiter.GrantsBounded` | internal/adapters/http/middleware/rate_limiter.go:118-135 | grants of one address plus the tokens it has left never exceed what flowed in: a full bucket first and after every expiry, otherwise the rate times the forward steps of the callers' clocks |
| `RateLimiter.AllowanceParts` | internal/adapters/http/middleware/rate_limiter.go:118-125 | that inflow is capacity * (1 + expiries) + the gains of the steps without an expiry |
| `RateLimiter.AddressBounded` | internal/adapters/http/middleware/rate_limiter.go:104-137 | the answered grants of an address keep this bound in every interleaving with other addresses, with lost replies and disagreeing clocks |
| `RateLimiter.NeverLapsed` | internal/adapters/http/middleware/rate_limiter.go:118-135 | as long as the gaps between its scripts stay below the lifetime, an address has the bucket of its own readings, kept for ever |
| `RateLimiter.UnlapsedBound` | internal/adapters/http/middleware/rate_limiter.go:104-137 | then its grants are at most capacity plus the gains, and for ordered readings capacity plus rate times the time between the first and the last |
| `RateLimiter.LapseCosts` | internal/adapters/http/middleware/rate_limiter.go:134-135 | an expiry the caller's clock does not show costs a capacity: two requests of one reading, a lifetime apart for Redis, are both granted from a bucket of one |
| `Otp.AttemptBudget` | internal/infrastructure/repository/redis/redis_otp.go:36-71 | one saved password is compared at most 2 + (verifiers in flight) times, plus once per attempt whose trace was lost |
| `Otp.AttemptBudgetReached` | internal/infrastructure/repository/redis/redis_otp.go:52-66 | some run without lost traces compares it that often |
| `Otp.OnlySavedVerifies` | internal/infrastructure/repository/redis/redis_otp.go:50-61 | in every run a comparison succeeds if and only if the text sent is the password saved when the hash was read; a hash recreated by a late increment never verifies |
| `Otp.OtpStore.SaveOTP` | internal/infrastructure/repository/redis/redis_otp.go:12-34 | the address gets this password with a zero counter; no other address changes |
| `Otp.OtpStore.VerifyOTP` | internal/infrastructure/repository/redis/redis_otp.go:36-71 | Ok exactly for the stored text, before three counted attempts; another text is answered otherwise and counted, the text kept; an accepted or exhausted password is deleted; no other address changes |
| `Otp.VerifyIsPath` | internal/infrastructure/repository/redis/redis_otp.go:36-71 | an undisturbed call is a path of the machine that compares exactly the text sent, and only below three counted attempts |
| `RefreshTokens.Pushed` | internal/infrastructure/repository/postgres/user_postgres.go:401-419 | an inserted row is pushed on its user's stack and on no other |
| `RefreshTokens.Popped` | internal/infrastructure/repository/postgres/user_postgres.go:449-475 | the update pops its user's stack and leaves the others |
| `RefreshTokens.Erased` | migrations/20251210125844_create_refresh_tokens_table.sql:10-13 | deleting a user clears its stack and no other |
| `RefreshTokens.Newest` | internal/infrastructure/repository/postgres/user_postgres.go:421-435 | the row the queries pick is the top of the stack of unrevoked rows |
| `RefreshTokens.RowsAreConserved` | internal/usecase/user_service.go:354-479 | in every interleaving unrevoked rows = stored logins - refreshes between revoke and store - refreshes that revoked and failed |
| `RefreshTokens.ReturnsExactly` | internal/usecase/user_service.go:379-471 | while nothing expires a token can be accepted again without being reissued if and only if an unrevoked row holds it or a call in flight will store it |
| `RefreshTokens.RotationIsOneTime` | internal/usecase/user_service.go:391-461 | if the user's calls did not overlap before the revoke and the token is issued once, no later run accepts the revoked token again |
| `RefreshTokens.SameSecondKeepsTheToken` | internal/infrastructure/security/jwt_auth.go:42-55 | a refresh within the second of issue hands out the same token, which is accepted again |
| `RefreshTokens.OverlapKeepsTheUsedToken` | internal/usecase/user_service.go:379-461 | a login between check and revoke makes the refresh revoke the login's token, and the used token can return |
| `Sessions.RefreshTokenRepo.StoreRefreshToken` | internal/infrastructure/repository/postgres/user_postgres.go:401-419 | pushes on the user's stack, unless the user is gone |
| `Sessions.RefreshTokenRepo.RetrieveRefreshToken` | internal/infrastructure/repository/postgres/user_postgres.go:421-447 | answers the top of the stack |
| `Sessions.RefreshTokenRepo.UpdateRefreshToken` | internal/infrastructure/repository/postgres/user_postgres.go:449-475 | pops the stack, whichever token is on top by now; an empty stack is an error |
| `Sessions.UserService.AuthenticateUser` | internal/usecase/user_service.go:256-329 | a token is answered exactly for the right password and pushed on that user's stack; no other stack changes |
| `Sessions.UserService.RefreshJwtToken` | internal/usecase/user_service.go:354-479 | a new pair is answered exactly if the token shown is unexpired, its user known, it is the top of the user's stack, and every call works; the new token carries user and e-mail of the one shown and replaces it on top; every other answer and what it leaves; the RevokedAt branch is never reached; other users are left alone |
| `Sessions.RefreshIsPath` | internal/usecase/user_service.go:354-479 | an undisturbed refresh is a path of the interleaving machine: check, revoke and store with their own outcomes, as far as it gets |
| `Accounts.StepKeepsInv` | internal/infrastructure/repository/postgres/user_postgres.go:140-222 | every statement of every interleaved call keeps the schema's constraints and all of the records below |
| `Accounts.UsersAreVerified` | internal/usecase/user_service.go:186-254 | every user was preceded by a step that compared the password a registration of the same address had saved, and no two users share an address |
| `Accounts.UsersAreTheVerifiedRegistration` | internal/usecase/user_service.go:192-213 | while no user of the address was deleted, the user carries the data of exactly the verified registration |
| `Fates.DeletionMixesRegistrations` | internal/usecase/user_service.go:203-213 | a run with a deletion makes a user from a registration nobody verified |
| `Accounts.CompletedVerification` | internal/usecase/user_service.go:213-243 | in every interleaving, when a call's last statement succeeds its address has no staging and no verification row, and its user, if still there, has exactly the staged preferences |
| `Accounts.OnePasswordPerStagingRow` | internal/usecase/user_service.go:90-144 | each staging row gets at most one saved password, for its own address |
| `Accounts.PreferencesNeverChange` | internal/usecase/user_service.go:213-224 | a user has at most one row of preferences, those of its staging row, unchanged while the user exists |
| `Fates.PreferencesComeExactly` | internal/usecase/user_service.go:213-233 | in every reachable state some later run gives a user preferences if and only if it has them, or exists and a call is about to write them |
| `Fates.StoppedVerificationStrands` | internal/usecase/user_service.go:213-233 | a verification that makes its user and does not write the preferences, by a lost reply, a refusal or a crash, leaves it without any for good |
| `Fates.AdmittedExactly` | internal/usecase/user_service.go:55-254 | in every reachable state some later run gives an address a user if and only if it has one, or no staging row, or a call past the password, or both a usable password and a verification to use it in, or calls about to provide them |
| `Fates.StoppedRegistrationBlocks` | internal/usecase/user_service.go:90-164 | a registration that stops before its password is saved, by a lost reply, a refusal or a crash, shuts its address out for good |
| `Registrar.UserVerificationRepo.CreateUser` | internal/infrastructure/repository/postgres/user_postgres.go:140-159 | inserts a staging row unless the address has one |
| `Registrar.UserVerificationRepo.SaveVerificationData` | internal/infrastructure/repository/postgres/user_postgres.go:224-240 | inserts the verification row under its unique and foreign keys |
| `Registrar.UserVerificationRepo.RetrieveVerificationData` | internal/infrastructure/repository/postgres/user_postgres.go:242-256 | answers some row with this request id, and none only if there is none |
| `Registrar.UserVerificationRepo.PersistUserInfo` | internal/infrastructure/repository/postgres/user_postgres.go:161-188 | copies the staging row to a fresh user unless the address has one, and answers its number and the staged preferences |
| `Registrar.UserVerificationRepo.PersistUserPreferences` | internal/infrastructure/repository/postgres/user_postgres.go:190-204 | adds a row of preferences for an existing user |
| `Registrar.UserVerificationRepo.DeleteUserFromStaging` | internal/infrastructure/repository/postgres/user_postgres.go:206-222 | removes the staging row and with it the verification row |
| `Registrar.UserVerificationRepo.DeleteUserByID` | internal/infrastructure/repository/postgres/user_postgres.go:76-91 | removes the user and with it exactly its preferences |
| `Registrar.UserService.RegisterUser` | internal/usecase/user_service.go:55-184 | Sent exactly if every statement worked, and then the address has this password with a zero counter, this staging row and this verification row; Conflict exactly for a look-up that finds a user; and how far it gets for every combination of outcomes |
| `Registrar.UserService.VerifyUser` | internal/usecase/user_service.go:186-254 | it succeeds exactly for the text stored for the address, below three attempts, while the address is free and every statement works; the tables change only after that match, and how far for every combination of outcomes |
| `OtpBudget.ComparisonsBounded` | internal/usecase/user_service.go:186-211 | in every run of registrations and verifications the password of one staging row is compared at most 2 + (verifications of its address in flight) times, plus once for each that ended without a trace |
| `Registrar.RegisterIsPath` | internal/usecase/user_service.go:55-184 | an undisturbed registration is a path of the interleaving machine: these statements with their own outcomes, in order |
| `Registrar.VerifyIsPath` | internal/usecase/user_service.go:186-254 | an undisturbed verification is a path that compares exactly the text sent and inserts a user only if that is the saved password; it leaves hash and tables as the calls do |
| `Stories.StepKeepsInv` | internal/usecase/story_service.go:35-109 | every step keeps each story under the file name its user's preferences give, and every job on its own story |
| `Stories.OneStoryEver` | migrations/20251012075218_create_stories_table.sql:11-15 | no user ever gets a second story or a second job |
| `Stories.UploadWritesItsOwnRow` | internal/infrastructure/repository/postgres/user_postgres.go:297-317 | the upload of a job writes exactly the job's own row, and finds none only if the user was deleted |
| `Stories.JobComesExactly` | internal/usecase/story_service.go:35-109 | in every reachable state some later run adds a job for a user if and only if it has one, or a call holds its story, or it has had no story yet and has or gets its preferences |
| `Stories.StoppedScheduleLosesTheStory` | internal/usecase/story_service.go:67-109 | a schedule that inserts its story and stops before its job is added, by a lost reply, a failure or a crash, leaves a user for whom no job is ever added |
| `StoryService.StoryRepo.SaveStoryInfo` | internal/infrastructure/repository/postgres/user_postgres.go:276-295 | inserts an empty story under the foreign key and the unique pair of user and file name |
| `StoryService.StoryRepo.SaveStoryJob` | internal/infrastructure/repository/postgres/user_postgres.go:319-337 | inserts a pending job row for an existing story |
| `StoryService.StoryRepo.UploadStory` | internal/infrastructure/repository/postgres/user_postgres.go:297-317 | writes the text to all stories of the user and fails when there is none |
| `StoryService.StoryRepo.SaveEmailJob` | internal/infrastructure/repository/postgres/user_postgres.go:381-399 | inserts a pending e-mail row for an existing story and user |
| `StoryService.StorySchedulerService.ScheduleStoryGeneration` | internal/usecase/story_service.go:35-118 | it succeeds exactly if the user has preferences, no story of that name, and every statement works; story, job row and job are written each only after the one before, and the exact job it appends |
| `StoryService.StoryGenerationService.Execute` | internal/usecase/story_executer.go:26-82 | succeeds exactly if generation, upload and the e-mail row did; an upload stands even if the row fails |
| `StoryService.ScheduleIsPath` | internal/usecase/story_service.go:35-118 | an undisturbed schedule is a path of the interleaving machine: these statements with their own outcomes, in order |
| `Stories.JoinConcat` | internal/usecase/story_service.go:63 | the keywords of a story are the preferences with a dash between each two |

## Left out

- HTTP handlers, routes, DTOs, validators, logging and configuration: plumbing with single-branch claims.
- The Gemini client, SMTP, pgx and go-redis: their calls are outcomes on abstract state.
- bcrypt, SHA-256 and JWT internals: a hash verifies exactly its text, a signed token is its claims; the salt makes a repeated token hash differ, so its unique key never fires.
- JSON: encoding is assumed to round-trip on jobs, so the decode errors of Read and ReEnqueue are not reached; ReEnqueue's is proved unreachable from that.
- Floating-point rounding in the Lua script and in the conversion of numbers from Go to Lua: real numbers instead.
- Contexts, tickers, timeouts and shutdown: interleaving and crash steps stand for them. A blocking read is a read without a message.
- More than one consumer group per stream, and entries added to a stream by anything but this server.
- A stage's dead letters and notifications are what that stage appended; two stages that share a dead-letter stream are not modelled.
- Liveness: pending entries are never delivered again, so nothing that needs fairness is claimed.
- Scheduler.SchedulerWorkPool.Run: entries that workers add between two ticks are not part of the loop; OneTick holds from every retry set.
- OneScheduler.OneLiveCopy: needs one scheduler per stage and none of the three events, because it fails otherwise; SchedulerFaults.DeliversOnceExactly gives the condition, for one stage.
- StageBudget.ExecutionsBounded: needs that none of the three events happens, because no bound holds otherwise (SchedulerFaults.Unbounded).
- Multiplicity.DeliveriesBounded: for jobs that are submitted once, as the API does; what submitting a job again adds is only counted for the e-mail stage, in StageBudget.
- RateLimiter.UnnoticedFromAnyBucket: which values runs reach depends on the arithmetic of the rate, so the condition is stated for all non-negative values.
- RefreshTokens.RotationIsOneTime: overlapping calls and a token issued twice are excluded because the property fails there; RefreshTokens.ReturnsExactly covers every state.
- Rows of refresh_tokens with equal created_at: rows are ordered by insertion.
- Lengths of VARCHAR columns and the enum types: an insert that breaks them is a refused statement.
- Expiry of a single field of the one-time-password hash: both fields expire together.
- Password and preference validators, one-time-password digits and the commented-out in-process limiter: easy or dead code.
- RegisterUser's two goroutines for saving and mailing the password: they are the two outcomes of one step, in that order.
