# Renot message delivery, verified

A Dafny model of a multi-tenant Telegram notification service: organizations, bots, destinations and subscriptions,
immediate and scheduled messages, and the Celery workers that deliver them under a throttle with bounded retry.

## How it is built

* **Tables and operations.** `Rows` and `Tables` hold the database rows. `Organizations`, `Bots`, `Destinations`,
  `Messaging`, `Auth`, `Webhooks` and `Delivery` say what each service operation does to them: same branches, same order
  of checks, same errors, with the unique indexes and the queries that expect at most one row made explicit.
* **Runs.** `Platforms.Step` is one step of the system: a request, one execution of a Celery job, a tick of the clock,
  a broker redelivery, one batch of the purge. `Run` is the state after any sequence of steps from the empty system.
  Steps carry the choices nobody controls: Telegram's answer and whether it is what Telegram did, where an execution is
  cut short and whether the broker keeps its job, a process dying between commit and enqueue, a second copy of a queued
  job, the rows a batch picks. `State.History` counts, per delivery log, what no table shows.
* **The code as written.** `OrganizationService`, `BotService`, `DestinationService`, `MessagingService`, `AuthService`,
  `WebhookService` and `MessagingTasks` are the imperative services: methods that update the fields of a database
  session, with the loops of the source. `Application.App` puts them together with commit and rollback, and its method
  `Serve` is proved to end in the state of the corresponding run. What is proved about runs therefore holds of it. The
  contract of each service method says it makes its table function's change, or answers that function's error and
  changes nothing; below, only the methods with loops and those of the Celery tasks have rows of their own, the others
  are reached through `Serve` and mean what the lemmas about their table functions say.
* **What each request does.** `Outcomes` is the send task, `Dispatching` the scheduler, `Creation` the message request,
  `Requests` and `Chats` the dashboard, account and webhook requests, `Isolation` the organization delete: in every run,
  exactly when each succeeds and the rows, jobs and errors it leaves. They speak of columns and literal numbers (`Columns`),
  not of the lookups of the services. `Isolation` also proves that no step touches another tenant's rows.
* **Proofs about runs.** `Frames` says which part of the state each step leaves alone. `Ledger` follows one delivery log
  through the whole system; `Laws`, `Causes`, `Conservation`, `Retries` and `StatusProgress` are the delivery guarantees;
  `Health`, `Coherence`, `Refusals` and `Authorization` what the tables keep and who may send; `Burial` what deleting an
  organization means for ever after; `FixedWindow`, `Throttling` and `Draining` the rate limits and why they let
  deliveries finish. `Witness` and `Mishaps` are concrete runs from the empty system: the statements about runs are not
  empty, and what they do not promise does happen. `Template`, `Payload`, `Pagination` and `Purge` are self-contained.

## Assumptions

* Each request and each execution of a job is one atomic step; the clock never goes backwards. Both throttle counters of
  one delivery read the same second.
* An error may hide an acceptance: `app/shared/telegram_client.py:45-48` turns a timeout after Telegram took the message
  into the error that is retried. `Delivery.Answer` has a case for it.
* A worker that dies, or an exception nobody catches, cuts an execution short (`Delivery.Fate`): before it did anything,
  between the throttle and the call, between the call and the commit, or between the commit of SENT and the enqueue of
  the usage event. Whether the broker keeps the job is left open, since `app/core/celery_app.py:34` only sets
  `task_acks_late`: the job of a killed pool process, and that of an uncaught exception, counts as done by default, that
  of a lost worker does not. An execution cut after its last effect is a whole execution of a job that was redelivered,
  and `Redeliver` may copy any outstanding job at any time.
* `Delivery.WasLost` is the outcome of a failed assertion or a missing poll key; `Laws.RanKeepsLaw` proves it never
  happens.
* Token and key hashes are injective, so a token or key stands for its hash. Whether a user is active, whether the webhook
  secret matches, which account an e-mail address names and which template a request names are inputs of the step.
* A delivery log is named by its (message, destination) pair, which a unique constraint makes a key. The `family` of a
  refresh token is not a column: it only records which login or switch a rotated token descends from.
* SQL NULLs are `None`. Times are milliseconds.

## Where the code and its comments differ

The model follows the code.

* A throttled requeue is a new job whose retry count starts at 0 (`app/modules/messaging/tasks.py:362-364`), so five
  retries bound a chain, not a log: the bound over every run is `Retries.FailedAttemptsBounded`.
* The comment at `app/modules/messaging/service.py:396-401` says messages already sent are spared by the delete cascade.
  Immediate messages never get a dispatch time, so they are not: `Burial.CascadeTakesImmediateHistory`, with a run in
  which the message of a SENT log goes in `Witness.TheCascadeTakesASentMessage`.
* "Blocked stays blocked" (`app/modules/destinations/service.py:224-232`) fails for `/stop` followed by `/start`:
  the run is `Witness.AChatLiftsItsOwnBlock`, the exact condition `Health.BlockEndsExactlyBy`.
* The edge case described at `app/modules/organizations/service.py:152-158` cannot occur, since the delete removes the
  membership rows: `Organizations.ListDropsNothing`.
* Subscriptions are checked when a message is created, not when it is sent.
* The purge fails on a foreign key when a retained usage event refers to an expired log; `Purge.UsageStore.PurgeExpired`
  says exactly when, and `Purge.APurgeIsRefused` is a store in which it does.
* A usage event is meant to follow every successful send (`app/modules/billing/service.py:193-198`). The order commit, then
  enqueue (`app/modules/messaging/tasks.py:297-307`) does not give that: a worker that dies in between
  leaves a SENT log without one, for ever, since every copy of the job is then skipped (`Mishaps.ADeathLosesAUsageEvent`;
  the exact condition is `Causes.EventIsLostExactlyBy`). And a reply that times out makes the retry send the message
  again, with no death and no redelivery (`Mishaps.ATimeoutDoublesAMessage`; `Causes.IsAcceptedAgainExactlyBy`).
  `Laws.DeliverySafety` counts both.
* FAILED is final only while the broker delivers every job once: a redelivered copy may still send the log, as in
  `Mishaps.ACopyRevivesAFailedLog`. The exact condition is `StatusProgress.FailedIsRevivedExactlyBy`; it is why
  `StatusProgress.OverallStatusOnlyMovesForward` excludes redelivery while `Laws.SentIsFinal` does not.

## Main results

* Every execution of the send task, exactly: `Outcomes.TaskIsExact`; its guarantees over whole runs: `Laws.DeliverySafety`,
  `Laws.SentIsFinal`, `Causes.EventIsLostExactlyBy`, `Causes.IsAcceptedAgainExactlyBy`, `Conservation.NoneLostNoneDoubled`,
  `Retries.FailedAttemptsBounded`, `StatusProgress.FailedIsRevivedExactlyBy`.
* The throttle: `Throttling.VerdictIsExact`, `Throttling.CallsPerSecond`, `Draining.ThrottleLetsDeliveriesFinish`,
  `Draining.BacklogDrains`, and for any policy `FixedWindow.SpanBound`.
* Creation, dispatch and status of a message: `Creation.CreationIsExact`, `Dispatching.DispatchIsExact`,
  `Dispatching.NoJobBeforeItsTime`, `Messaging.OverallStatusMeans`, `Authorization.SendIsAuthorized`.
* The organization delete and the separation of tenants: `Isolation.DeleteIsExact`, `Isolation.StepTouchesOneTenant`,
  `Burial.DeletedTenantIsInert`.
* Tables and requests: `Health.RunIsHealthy`, `Coherence.TenantCoherence`, `Refusals.DatabaseNeverRefuses`,
  `Refusals.RotationSafety`, `Health.BlockEndsExactlyBy`, `Chats.UpdateIsExact`.
* Templates, pages and retention: `Template.RenderMeaning`, `Pagination.PagesConcatenate`,
  `Purge.UsageStore.PurgeExpired`.
* The imperative application does all this: `Application.App.Serve`.

## Model

| member | source | states |
|---|---|---|
| Laws.DeliverySafety | app/modules/messaging/tasks.py:245-379 | In every run, with any redeliveries, lost enqueues, executions cut short at any of four points and errors that hide an acceptance: a log is recorded SENT at most once; the acceptances of a log are exactly that one plus those cut off before the commit plus those reported as errors; a log in the table is SENT iff a usage event was enqueued or cut off right after the commit, once; SENT iff `sent_at` is set, FAILED iff `error_reason` is set; retries stay in 0..5; no stored message is unsendable; a log waiting for its dispatch has no outstanding send and no history |
| Laws.SentIsFinal | app/modules/messaging/tasks.py:260-261 | From any lawful state, a SENT row stays as it is for ever (only the purge may remove it); Telegram accepts or rejects its log never again and no usage event is added or lost, whatever copies are still delivered |
| Causes.StepCounts | app/modules/messaging/tasks.py:245-311 | In every run, exactly which steps add an acceptance, an error, an unreported or unrecorded acceptance, a usage event or a lost one to a log: a due send with nothing in its way that passes the throttle, by its answer and the point of a cut; no other step does |
| Causes.EventIsLostExactlyBy | app/modules/messaging/tasks.py:283-307 | In every run a usage event is lost iff such a send is accepted and cut short right after the commit; the log is SENT then, and in every continuation no usage event is enqueued for it |
| Causes.IsAcceptedAgainExactlyBy | app/modules/messaging/tasks.py:260-297 | In every run a log is accepted once more iff such a send calls Telegram, is not refused, and an earlier acceptance was cut off before its commit or reported as an error; whenever Telegram is called all earlier acceptances of the log were such, and the log is not SENT |
| Causes.CallsAreRecorded | app/modules/messaging/tasks.py:283-293 | In every run the history of calls gains one entry, for the bot, chat and second, exactly when Telegram is called |
| Laws.StepKeepsLaw | app/modules/messaging/tasks.py:245-379 | Every step of the system keeps the law of every log |
| Laws.RunKeepsLaw | app/modules/messaging/service.py:218-306 | Every state a run reaches obeys the law of every log |
| Ledger.StepMoves | app/modules/messaging/tasks.py:245-379 | Complete case analysis: every step changes the account of a log (message, row, outstanding sends, event counts) in one of six stated ways or not at all |
| Outcomes.TaskIsExact | app/modules/messaging/tasks.py:245-364 | The send task in every run and every case, with the columns and the numbers written out: a job that is not due changes nothing; cut short, the row is SENT iff the commit was reached and the job stays iff the broker keeps it; otherwise a settled log is skipped, an obstructed one is FAILED with its reason, one held back gets a job with no retries used, a second later, an accepted one is SENT with its four columns, a refused one is retried after 1, 2, 4, 8, 16 seconds and then FAILED with the reason cut to 2000 characters |
| Outcomes.ObstacleMeans | app/modules/messaging/tasks.py:254-281 | The checks before the throttle, on the columns of the log, message, bot and destination: skipped, failed for which reason, or free |
| Outcomes.HeldBackStartsAfresh | app/modules/messaging/tasks.py:355-364 | In every run a delivery held back by the throttle replaces its job by one with retry count 0 that is due in a second, and leaves the row alone |
| Outcomes.RefusedIsRetried | app/modules/messaging/tasks.py:345-353 | In every run an unaccepted call with fewer than five retries replaces its job by the next retry, due in 1, 2, 4, 8 or 16 seconds, and leaves the row alone |
| Outcomes.TaskMindsItsLog | app/modules/messaging/tasks.py:345-364 | No other log changes its row, its jobs or its history |
| Outcomes.TaskIsNoted | app/modules/messaging/tasks.py:345-364 | In every run an execution counts as held back, cut short or lost exactly when it was |
| Outcomes.RedeliveryIsExact | app/core/celery_app.py:34 | A redelivery is one more copy of an outstanding job and nothing else |
| Ledger.CreateMoves | app/modules/messaging/service.py:218-306 | A message request changes an account only by creating its QUEUED row together with its first send (none when scheduled) |
| Dispatching.DispatchIsExact | app/modules/messaging/service.py:353-379 | In every run the dispatcher stamps exactly the live, undispatched messages whose scheduled time is not in the future, gives exactly their logs a first job, due now, unless it dies before, and changes nothing else |
| Dispatching.NoneLeftDue | app/modules/messaging/repository.py:153-158 | No message is due right after it ran |
| Dispatching.NeverEarly | app/modules/messaging/repository.py:153-158 | In every run a dispatch time is never before the scheduled time nor in the future |
| Dispatching.NoJobBeforeItsTime | app/modules/messaging/service.py:353-379 | In every run a log of a scheduled message has a job, or any history, only once the scheduled time has come |
| Conservation.NoneLostNoneDoubled | app/modules/messaging/service.py:293-306 | Conservation over every run in which nothing is cut short and nothing is redelivered: a QUEUED log past its dispatch has exactly one outstanding send, every other log has none, and Telegram accepted exactly the SENT logs, once each, apart from acceptances it reported as errors |
| Conservation.RunKeepsClean | app/modules/messaging/tasks.py:345-379 | Without redelivery, but with executions cut short, jobs dropped and enqueues lost: outstanding plus lost sends is one for a QUEUED log past its dispatch, zero for a FAILED one, and zero for a SENT one unless its execution was cut off right after the commit |
| Retries.FailedAttemptsBounded | app/modules/messaging/tasks.py:348-364 | In every run: with k throttled requeues of a log, c redelivered copies of its jobs and d of its executions cut short, at most 5k + 6(1 + c) + d Telegram calls for it fail |
| Retries.RunKeepsRetry | app/modules/messaging/tasks.py:348-364 | The invariant behind it: failed attempts so far plus those the outstanding jobs may still add stay within that bound |
| Retries.ExhaustionIsRecorded | app/modules/messaging/tasks.py:348-351 | In every run, a send at the fifth retry that meets no obstacle, passes the throttle and is refused, or accepted without a reply, leaves the log FAILED with a reason and is taken away; unthrottled, this is at least 31 seconds after the first send was enqueued |
| Delivery.BackoffTotal | app/modules/messaging/tasks.py:353 | Countdowns 1, 2, 4, 8, 16 seconds, 31 in all |
| Delivery.WaitIsPow2Minus1 | app/modules/messaging/tasks.py:353 | Total countdown before attempt n is 2^n - 1 seconds, for every n |
| Delivery.TaskTouchesOnlyDelivery | app/modules/messaging/tasks.py:245-379 | A send changes delivery logs, counters and the broker, nothing else |
| StatusProgress.OverallStatusOnlyMovesForward | app/modules/messaging/service.py:132-156 | Over any continuation without purge and redelivery the overall status moves only forward, and sent, partially failed and failed are final |
| StatusProgress.FailedIsRevivedExactlyBy | app/modules/messaging/tasks.py:260-297 | In any run, redeliveries included: a FAILED log never returns to QUEUED and becomes SENT iff an outstanding copy runs with everything in place, passes the throttle, is accepted and gets as far as the commit; without redelivery there is no such copy |
| Mishaps.ACopyRevivesAFailedLog | app/modules/messaging/tasks.py:260-297 | It happens: a concrete run from the empty system in which six refusals leave the log FAILED and a redelivered copy of its job makes it SENT |
| Mishaps.ATimeoutDoublesAMessage | app/shared/telegram_client.py:42-48 | A concrete run from the empty system, nothing cut short or redelivered: Telegram takes the message, the reply times out, the retry is accepted too, and the SENT log has been accepted twice |
| Mishaps.ADeathLosesAUsageEvent | app/modules/messaging/tasks.py:297-307 | A concrete run from the empty system leaves a log SENT by a worker that dies right after the commit; in every continuation no usage event is enqueued for it |
| Witness.ARunDelivers | app/modules/messaging/tasks.py:345-364 | A concrete run from the empty system, five steps long, ends with a SENT log, so the statements about runs are not empty |
| Messaging.StatusMovesForward | app/modules/messaging/service.py:132-156 | The order argument behind it, for any two lists of rows |
| Messaging.CountsAddUp | app/modules/messaging/service.py:144-146 | The three counts always sum to the number of logs |
| Messaging.CountMeaning | app/modules/messaging/service.py:144-155 | A count is zero, or all, exactly when no row, or every row, has the status |
| Messaging.OverallStatusMeans | app/modules/messaging/service.py:132-156 | Each of the six verdicts, on the rows: scheduled iff scheduled and undispatched; otherwise queued, in progress, sent (no rows included), failed or partially failed by which statuses occur |
| Messaging.CountIsNumber | app/modules/messaging/service.py:144-146 | A count is the number of rows with that status |
| Messaging.CreateIsExact | app/modules/messaging/service.py:218-290 | A successful request adds one message and exactly one QUEUED log per requested destination, all of them actively subscribed to the bot then, and changes no other row |
| Creation.CreationIsExact | app/modules/messaging/service.py:218-306 | In every run a message request with valid credentials succeeds iff its shape, bot, access, every destination and subscription, template values, time and id are in order; then exactly its message, with the content written out, one QUEUED log per destination and, unless scheduled, one job per log, due now, are new; otherwise nothing changes and the error is that of the first condition not met |
| Creation.StrangersAreRefused | app/modules/messaging/deps.py:65-95 | Without valid credentials nothing changes |
| Messaging.NoRefusalMeansActive | app/modules/messaging/service.py:255-261 | The validation loop passes iff every requested destination is live and actively subscribed |
| Coherence.TenantCoherence | app/modules/messaging/service.py:247-290 | In every run a log, its message, bot, destination and subscription exist and share one tenant |
| Coherence.StepKeepsLinked | app/modules/messaging/service.py:218-290 | Every step keeps those links |
| Throttling.CallsPerSecond | app/modules/messaging/tasks.py:95-118 | In every run at most 30 Telegram calls per bot and second, and at most one per bot, chat and second |
| Throttling.RunMeters | app/modules/messaging/tasks.py:95-118 | In every run the Redis counters are what the history of calls leaves, and every Telegram call was admitted by both counters |
| Throttling.VerdictIsExact | app/modules/messaging/tasks.py:95-118 | In every run a delivery passes the throttle iff fewer than 30 attempts of its bot, and none of that bot on its chat, were made in the current second |
| Throttling.CountersAreExact | app/modules/messaging/tasks.py:95-108 | In every run the counter of the current second is there iff an attempt was made in it, shows how many, and goes two seconds after the first of them |
| Draining.ThrottleLetsDeliveriesFinish | app/modules/messaging/tasks.py:111-118 | From any reachable state on, while what the bot's jobs get past the throttle is accepted and recorded and none of its delivered logs is purged, whatever happens to other bots: the bot gets at least as many newly SENT logs as there are new seconds in which one of its sends reached the throttle; those seconds plus its QUEUED logs are at most its logs that were not SENT before and are not FAILED now, so after that many seconds none is QUEUED |
| Draining.OpenJobsDrain | app/modules/messaging/tasks.py:111-118 | The same counting only logs with an outstanding send: new seconds plus the ones still outstanding are at most the ones ever outstanding since, FAILED ones left out on both sides; messages waiting for their dispatch and lost enqueues do not count |
| Draining.BacklogDrains | app/modules/messaging/tasks.py:111-118 | While nothing new is sent or dispatched, N logs outstanding at the start that do not fail need at most N such seconds: then only FAILED logs have sends left |
| Mishaps.ABacklogOfOneDrains | app/modules/messaging/tasks.py:283-297 | A concrete run meets that bound: one outstanding log, one second, nothing left |
| Draining.RunIsPaired | app/modules/messaging/tasks.py:111-118 | In every run the chat counter is consumed only right after its bot counter, at the same instant |
| Draining.FirstOfSecondPasses | app/modules/messaging/tasks.py:111-118 | The first attempt of a bot in a second passes both counters, whatever its chat |
| Draining.FirstAttemptDelivers | app/modules/messaging/tasks.py:283-297 | That attempt, accepted by Telegram and getting as far as the commit, is recorded SENT in that second |
| FixedWindow.Redis.TryConsumeWindow | app/core/middleware/rate_limit.py:135-151 | The counter store after INCR and EXPIRE, the verdict, and the retry delay |
| FixedWindow.ExpiryForgetsNothing | app/core/middleware/rate_limit.py:135-151 | Until its window is over a key holds exactly the number of calls made in it |
| FixedWindow.LivesFromFirstCall | app/core/middleware/rate_limit.py:135-151 | A key lives from the first call of its window on; later calls do not prolong it |
| FixedWindow.AdmitsExactlyTheFirst | app/core/middleware/rate_limit.py:135-151 | Per key and window exactly the first `limit` calls are admitted |
| FixedWindow.AdmittedPerWindow | app/core/middleware/rate_limit.py:135-151 | The number admitted in a window is min(attempts, limit) |
| FixedWindow.SpanBound | app/core/middleware/rate_limit.py:135-151 | Any span of m window lengths admits at most (m + 1) * limit calls of a key |
| FixedWindow.RetryAfterIsNextWindow | app/core/middleware/rate_limit.py:145-151 | The retry delay lies in 1..W and names the first second of the next window |
| Burial.DeletedTenantIsInert | app/modules/organizations/service.py:292-352 | After a successful delete, in every continuation: no member, live bot, pending message or usable token; bots, assignments, destinations, subscriptions, messages and tokens of the tenant exactly as the delete left them; no further acceptance or rejection for its logs, none becomes SENT; any leftover send, executed to its end, is skipped or fails and leaves the broker |
| Burial.StepStaysBuried | app/core/deps.py:199-215 | Every single step of any user, bot or worker leaves the tenant buried and its rows untouched |
| Burial.DeleteBuries | app/modules/organizations/service.py:292-352 | The cascade establishes the buried state |
| Burial.LeftoverTaskEnds | app/modules/messaging/tasks.py:263-281 | A send of a tenant without live bots is skipped, fails or is cut short before the throttle: no counter, no history and no other log changes |
| Burial.CascadeTakesImmediateHistory | app/modules/messaging/service.py:382-402 | Exactly the live messages with a dispatch time survive the cascade; immediate messages, sent or not, never have one and are deleted |
| Isolation.DeleteIsExact | app/modules/organizations/service.py:292-352 | The delete succeeds exactly for an owner of the live organization; then, column by column, it marks the organization, its live bots, assignments and undispatched messages, revokes its tokens and removes its memberships, and leaves every other row of any tenant, all logs, jobs and counters alone |
| Isolation.StepTouchesOneTenant | app/modules/bots/repository.py:120-173 | Tenant isolation: no step changes, adds or removes any row of a tenant it does not concern, in any table |
| Isolation.OthersChangeNothing | app/modules/bots/repository.py:120-173 | So whatever the others do, for as long as they like, the rows of a tenant stay as they are |
| Isolation.PurgeIsExact | app/modules/messaging/repository.py:210-229 | A purge step removes exactly the picked logs of its tenant older than the cutoff |
| Witness.TheCascadeTakesASentMessage | app/modules/messaging/service.py:382-402 | It happens: a concrete run from the empty system in which the delete takes a message whose log is SENT |
| Health.RunIsHealthy | app/modules/organizations/service.py:128-352 | In every run: active organizations have an owner and only they have members; live bots and live destinations are unique; a subscription is live exactly as long as its destination; token families have at most one unrevoked token; and every status query answers as the simple status machine that was told what the commands mean, not how the handlers answered |
| Health.BlockEndsExactlyBy | app/modules/destinations/service.py:224-232 | In every run the block of a bot and chat ends with a step iff the step is `/stop` from that chat to that live bot with the right secret, a permitted delete of its destination, or a permitted dashboard change to another status |
| Health.BlockLasts | app/modules/destinations/service.py:224-232 | So it lasts through every continuation without such a step, any number of `/start` included |
| Witness.AChatLiftsItsOwnBlock | app/modules/destinations/service.py:224-232 | "Blocked stays blocked" fails: in a concrete run from the empty system an administrator blocks a chat, the chat sends `/stop` and `/start`, and its status is active again |
| Authorization.SendIsAuthorized | app/modules/messaging/service.py:70-112 | In every run a message request that succeeds names a live bot of its tenant and comes from an owner or administrator of that active organization, from a member with a live assignment of that bot, or from the holder of that very bot's key |
| Authorization.AccessMeans | app/modules/messaging/service.py:70-112 | The access check passes iff the key, if any, is that bot's and the user, if any, manages the organization or has a live assignment |
| Authorization.AssignedMeans | app/modules/bots/service.py:331-344 | `is_assigned` is true iff a live assignment of that user and bot exists, and never meets two rows |
| Authorization.AuthenticatedAs | app/modules/messaging/deps.py:65-95 | What authentication establishes about a user or a key |
| Refusals.DatabaseNeverRefuses | app/modules/destinations/service.py:47-80 | After any run a request with fresh ids is never refused by a unique index or primary key, and no single-row query meets two rows |
| Refusals.RotationSafety | app/modules/auth/service.py:88-109 | A refresh token is exchanged at most once in a run; user and tenant are constant along a family, of which at most one token is unrevoked; every token keeps its user, tenant and family, and a revoked one stays revoked since the same time |
| Refusals.RunKeepsExchangeLaw | app/modules/auth/service.py:88-109 | A token not stored or not revoked has never been exchanged |
| Requests.AuthRequestIsExact | app/modules/auth/service.py:63-134 | Login, switch and refresh on the token rows: a refresh succeeds iff the token is stored, unrevoked and not expired and the user active; it is revoked now and its successor has its user and tenant; no other row changes |
| Requests.RolesMean | app/modules/organizations/service.py:56-88 | The permission matrix, by permission |
| Requests.GuardsMean | app/core/deps.py:199-215 | Both guards admit exactly the roles for the permission, and say why not otherwise |
| Requests.FoundingIsExact | app/modules/organizations/service.py:128-137 | In every run founding succeeds iff the id is new; the founder is the owner, nothing else changes |
| Requests.AddingIsExact | app/modules/organizations/service.py:232-260 | In every run an owner or administrator adds an existing user who is no member yet, with the given role; everything else is refused and changes nothing |
| Requests.RoleChangeIsExact | app/modules/organizations/service.py:263-289 | In every run an owner or administrator sets the role of any member, except that the only owner cannot be demoted; everything else is refused and changes nothing |
| Organizations.GuardsAgree | app/core/deps.py:199-215 | The two permission guards admit the same requests; after the membership test the "organization is active" test never fails |
| Organizations.ListDropsNothing | app/modules/organizations/service.py:140-174 | The filter on active organizations drops no item of a page |
| Bots.RowsForIsAll | app/modules/bots/repository.py:159-173 | The tenant filter of the with-deleted lookup hides no row of a bot and user |
| Bots.ApiKeyNamesOneBot | app/modules/bots/service.py:244-255 | An API key leads to at most one bot, a live one |
| Requests.BotRequestIsExact | app/modules/bots/service.py:65-319 | In every run registration, policy, delete, assignment and unassignment are for owners and administrators, and make exactly the stated row, or are refused for the first stated reason |
| Destinations.CreateRefines | app/modules/destinations/service.py:47-80 | Manual creation does one `Register` of the status machine; it succeeds iff the bot exists, the chat is unknown and the id is new |
| Destinations.StartRefines | app/modules/destinations/service.py:193-270 | `/start` with the policy open does one `Start` of the status machine; it succeeds iff the chat is known or the id new |
| Destinations.StopRefines | app/modules/destinations/service.py:315-346 | `/stop` does one `Stop`, and never fails |
| Destinations.UpdateRefines | app/modules/destinations/service.py:164-190 | A dashboard change does one `Put`; it succeeds iff the destination and the bot exist and the machine has a status for that bot and chat |
| Destinations.DeleteRefines | app/modules/destinations/service.py:146-161 | Destination delete does one `Forget` of the chat for all bots; it succeeds iff the destination exists |
| Chats.DestinationRequestIsExact | app/modules/destinations/service.py:47-190 | In every run the dashboard requests about destinations are for owners and administrators, and leave exactly the stated rows, or are refused for the first stated reason |
| Destinations.StartTwice | app/modules/destinations/service.py:193-270 | A second `/start` leaves the tables exactly as the first left them, whatever id it was given; the status is then active or blocked |
| Destinations.StartKeepsBlock | app/modules/destinations/service.py:224-232 | `/start` of a blocked chat changes no row |
| Destinations.ListForBotDropsNothing | app/modules/destinations/service.py:100-129 | The filter on live destinations drops no item of a page |
| Webhooks.UpdateRefines | app/modules/webhooks/service.py:101-202 | A webhook call does to the tables what its command does to the status machine, and is refused only for an unknown bot, a wrong secret or a new destination whose id is taken |
| Webhooks.CommandIgnoresSuffix | app/modules/webhooks/service.py:256-266 | A command is recognized whatever its case, bot suffix and arguments |
| Chats.CommandMeans | app/modules/webhooks/service.py:256-266 | A text is recognized as a command iff it is a slash, the word in any case, perhaps `@` and a name, and perhaps arguments after a blank |
| Chats.UpdateIsExact | app/modules/webhooks/service.py:101-202 | In every run an update for a live bot with the right secret changes exactly the rows of `/start`, with the policy open, or `/stop`, for the chat and topic it was sent in; `/status`, `/help`, `/about`, channels and everything else change nothing; other updates are refused |
| Payload.ValidateAcceptsExactly | app/modules/messaging/schema.py:54-120 | The validator accepts exactly the three content shapes with distinct, non-empty destinations, texts of at most 4096 and URLs of at most 2048 characters, and changes nothing |
| Payload.ValidatedIsSendable | app/modules/messaging/tasks.py:128-186 | A validated message, stored, reaches exactly the sender of its content type with its own values: no assertion fails and no poll key is missing |
| Template.ScanSplits | app/modules/messaging/service.py:67 | Every body has a leftmost splitting into literals and placeholders that prints back to it |
| Template.SplitIsUnique | app/modules/messaging/service.py:67 | and only one |
| Template.MatchIsComplete | app/modules/messaging/service.py:67 | The scanner finds every string of the placeholder pattern, with its name |
| Template.RenderMeaning | app/modules/messaging/service.py:115-129 | Rendering succeeds iff every placeholder has a value, then fills the splitting in place without rescanning values; otherwise it names the first placeholder without one |
| Template.RenderTextMeaning | app/modules/messaging/service.py:115-129 | The same for a stored template with optional variables |
| Template.NameCharacters | app/modules/messaging/service.py:67 | The characters of a placeholder name |
| Template.Blanks | app/modules/messaging/service.py:67 | The blanks of the pattern, one by one |
| Template.PlainBodyUnchanged | app/modules/messaging/service.py:115-129 | A body without placeholders is unchanged |
| Pagination.MakeParams | app/core/pagination.py:31-49 | Clamped parameters: page at least 1, size between 1 and 100, valid values unchanged, offset (page - 1) * size |
| Pagination.PagesConcatenate | app/core/pagination.py:31-62 | Pages 1..total_pages concatenate to the whole list in order |
| Pagination.LaterPagesEmpty | app/core/pagination.py:58-62 | A page is empty iff it lies after the last one |
| Pagination.ItemOnOnePage | app/core/pagination.py:42-62 | Item i of the list is on exactly one page, at the place its offset gives it, and that page is one of 1..total_pages |
| Purge.UsageStore.DeleteEventsBefore | app/modules/billing/repository.py:131-151 | One batch: only expired events, at most the batch size, all of them when fewer |
| Purge.UsageStore.DeleteLogsBefore | app/modules/messaging/repository.py:210-229 | The same for delivery logs; refused, with nothing removed, when a retained usage event refers to a picked log |
| Purge.UsageStore.PurgeEvents | app/modules/billing/tasks.py:125-144 | The loop ends, commits every non-empty batch and removes exactly the expired events, counted |
| Purge.UsageStore.PurgeLogs | app/modules/billing/tasks.py:125-144 | The same for logs, refused iff a retained event refers to an expired log |
| Purge.UsageStore.PurgeTargets | app/modules/billing/tasks.py:147-178 | The loop over targets, and where it stops |
| Purge.UsageStore.PurgeExpired | app/modules/billing/tasks.py:147-178 | A run that raises nothing removes exactly the rows each target expires and returns their number; unless killed, it raises iff some retained usage event refers to an expired log |
| Purge.RerunReachesTheSame | app/modules/billing/tasks.py:125-178 | A rerun at any later time, after a stop between batches, is to keep exactly the rows it would keep had there been no first run |
| Purge.RetentionMeans | app/modules/billing/tasks.py:125-178 | A row is expired iff it is older than its retention in days of 24 hours; a batch has 1000 rows |
| Purge.APurgeIsRefused | app/modules/billing/tasks.py:147-178 | The refusal happens: a concrete store, an event younger than its log and a cutoff between the two |
| Application.App.Serve | app/modules/messaging/tasks.py:345-379 | The imperative application, run on any sequence of requests and executions, ends in the state the run of steps ends in, so every property of runs holds of it |
| Application.App.Perform | app/core/deps.py:75-77 | One request or execution: commit or rollback, then exactly the state of the step function |
| Application.App.HandleCreateMessage | app/modules/messaging/router.py:84-116 | Authenticate, create, commit, then enqueue |
| Application.App.HandleDeleteOrganization | app/modules/organizations/service.py:292-352 | The delete request as one transaction |
| MessagingTasks.TryConsumeWindow | app/modules/messaging/tasks.py:95-108 | The one-second window on the shared counters |
| MessagingTasks.CheckThrottle | app/modules/messaging/tasks.py:111-118 | Both counters are consumed before either verdict is used |
| MessagingTasks.ProcessDelivery | app/modules/messaging/tasks.py:245-311 | New tables, counters, history and outcome of one delivery |
| MessagingTasks.MarkDeliveryFailedPermanently | app/modules/messaging/tasks.py:314-326 | The row is FAILED with the reason, and committed; a missing row is left missing |
| MessagingTasks.SendMessageToDestination | app/modules/messaging/tasks.py:345-364 | Retry, requeue, permanent failure or acknowledgement |
| MessagingTasks.DispatchScheduledMessages | app/modules/messaging/tasks.py:372-379 | Every due message is stamped and committed, then the first send of each of its logs enqueued |
| MessagingTasks.MarkSent | app/modules/messaging/repository.py:198-203 | Status, Telegram id, no error, sending time |
| MessagingTasks.MarkFailed | app/modules/messaging/repository.py:205-208 | Status and the reason cut to 2000 characters |
| MessagingService.CheckDestinations | app/modules/messaging/service.py:255-261 | The first refusal of the loop over destinations |
| MessagingService.BulkCreateQueued | app/modules/messaging/repository.py:167-181 | All the rows, or the unique constraint's refusal |
| MessagingService.CreateMessage | app/modules/messaging/service.py:218-290 | The new tables, or the first error in the order of the checks |
| MessagingService.EnqueueImmediateDeliveries | app/modules/messaging/service.py:293-306 | One first send per log, none for a scheduled message |
| MessagingService.DispatchDueScheduledMessages | app/modules/messaging/service.py:353-379 | Stamps exactly the due messages and returns each once with all its logs |
| MessagingService.CascadeDeletePendingMessages | app/modules/messaging/service.py:382-402 | Soft-deletes exactly the tenant's live messages without a dispatch time |
| OrganizationService.CountOwners | app/modules/organizations/repository.py:124-126 | The number of owner rows |
| OrganizationService.ListUserOrganizations | app/modules/organizations/service.py:140-174 | The active organizations of the page, in order |
| OrganizationService.DeleteMembers | app/modules/organizations/service.py:349-350 | All rows of the organization go, no others |
| BotService.CascadeDeleteForOrganization | app/modules/bots/service.py:179-202 | Both loops together retire every live bot and assignment of the tenant and touch no other |
| DestinationService.DeleteDestination | app/modules/destinations/service.py:146-161 | The destination and exactly its live subscriptions are marked |
| DestinationService.ListDestinationsForBot | app/modules/destinations/service.py:100-129 | The live destinations of the page, in order |
| Celery.Celery.DelayAll | app/modules/messaging/service.py:305-306 | The enqueueing loop: one first send per log it reaches |
| Database.Session.Rollback | app/core/deps.py:75-77 | A session closed without a commit leaves the committed tables |

## Left out

- HTTP routing, response envelopes, localization, logging, settings and the OpenAPI pages: plumbing.
- The Telegram client and the outbound status callback: foreign calls; a send is an answer chosen by the step.
- Password hashing, token signing and decoding, encryption of secrets: library calls.
- Several requests interleaving inside one transaction: each is one atomic step.
- A worker dying between the increments of the two throttle counters: an execution passes both or is cut before either.
- API key rotation, bot renaming, title updates, template editing, plans, quotas and usage counting: easy members.
- Reply texts of the bot commands; `/status`, `/help` and `/about` change nothing.
- Parse mode, thread and caption details of the Telegram request.
- Row order under equal creation times: pagination assumes one fixed order.
- Application.App.HandlePurge: deletes one batch of logs in one statement; the loops and the usage events are in Purge, over a store of their own.
- Draining.ThrottleLetsDeliveriesFinish: counts seconds in which a send reaches the throttle; that workers do run queued jobs is not modelled.
