# Verification model of the notification delivery pipeline

The repository is a Go service that accepts notifications over HTTP, limits and
gates them per user and channel, appends them to a Kafka topic, and has several
workers send them through third-party providers. This project models that
pipeline in Dafny and proves what it guarantees when requests and workers run
concurrently, remote calls fail with or without having taken effect, workers
crash, messages are redelivered, and statements of interrupted callers are
applied late.

Every part is given twice. A **state machine** has one event for each remote
call, so that its runs are all interleavings with all failures; the laws are
lemmas over runs. A **class** follows the Go code statement by statement, with
its loops and its fields, and each of its methods is proved to be a run of the
machine that takes every outcome from the given environment, besides stating
outright what it leaves behind.

| file | models |
|---|---|
| `Sets.dfy` | counting with finite sets |
| `Domain.dfy`, `Store.dfy`, `Redis.dfy`, `Broker.dfy` | structs, tables and statements, Redis commands and keys, topic, producer, consumer |
| `Retry.dfy` | the retry loop and its 64-bit backoff arithmetic |
| `RateProtocol.dfy`, `Limiter.dfy` | INCR and EXPIRE under concurrent callers; `Allow` |
| `CacheProtocol.dfy`, `Cache.dfy` | cache-aside lookups under concurrent fills; `FindByID`, `FindPreferences` |
| `Delivery.dfy`, `DeliveryLaws.dfy`, `Worker.dfy` | `process` on K workers over one table; `Run` and `process` |
| `ApiProtocol.dfy`, `ApiLaws.dfy`, `Identity.dfy`, `Separation.dfy`, `Replies.dfy`, `Decision.dfy`, `Handler.dfy` | concurrent `SendNotification` requests over the limiter, cache, tables and topic; what one call decides; the handler |
| `System.dfy` | requests and workers together, over one topic and one database |
| `Shutdown.dfy` | `cmd/worker/main.go`: launching, stopping and closing the workers |

## What is assumed

- `uuid.NewString` never repeats an id.
- A SQL statement is atomic. A call that returns an error may have been applied
  (`LostReply`), not applied (`Refused`) or be applied later: a statement whose
  caller stopped waiting stays in flight (`Delivery.Late`) and may be applied or
  dropped at any time. One call is applied at most once.
- Redis commands are atomic, and its clock does not run backwards. Times are in
  milliseconds. The cache lifetime and the rate window are positive, the window
  a whole number of seconds. A rate key disappears only by expiry; cache entries
  may be dropped or spoiled at any time. The keyspace starts without rate and
  cache keys.
- `json.Unmarshal` undoes `json.Marshal`; other bytes may fail to decode.
- Account tables may be rewritten by others at any time.
- Kafka may hand any message of the topic to any worker, any number of times or
  never. A call of the writer may append several copies of its message, since
  the library repeats a write whose reply it missed; it may return an error
  although a copy was appended.

## Where the code and its documentation differ

- The limiter is called a sliding window (`internal/ratelimit/limiter.go:12`,
  `:18`). It is a fixed window that starts with the first call:
  `RateProtocol.SlidingGuaranteeIff` shows that the sliding promise holds exactly
  for limits up to one, `RateProtocol.WindowBound` gives the tight bound.
- Rejected calls count as well (`internal/ratelimit/limiter.go:51` against the
  comment at line 41); the model counts them.
- The idempotency check is meant to stop double deliveries
  (`internal/worker/worker.go:82-84`). `DeliveryLaws.AtMostOnceIff` shows that,
  no acknowledgement being lost, it does so exactly when one worker runs; the
  program starts four, each in a group of its own on the same topic, and
  `process` never looks at the notification's channel.
- The doubling backoff of `internal/retry/retry.go:56` is computed in 64 bits.
  `Retry.ExactBackoffIff` says when that is exact; the shipped configuration
  (three attempts, hence two waits, not the three of the header comment) is.
- `internal/kafka/producer.go:62` expects a user's messages to share a
  partition; the round-robin balancer at line 32 ignores the key, and no
  ordering is claimed here.
- `SendNotification` answers 404 for every error of the user lookup, a database
  outage included (`internal/api/handler.go:143-147`); so does the model.
- `NewConsumer` failing after a worker was launched makes `run` return without
  waiting for it (`cmd/worker/main.go:78-80`): `Shutdown.StrandsIff`.

## Model

| member | source | states |
|---|---|---|
| Retry.Do | internal/retry/retry.go:42-71 | nil exactly when some attempt succeeds that the loop reaches, every earlier one having failed and its wait run out; cancelled after a failed attempt before the last; otherwise exhausted with the last error. The trace is admissible: calls numbered from one, every one but the last failed, each followed by a wait of the computed delay, at most MaxAttempts of them; answers and select outcomes are the environment's |
| Retry.YieldsOne | internal/retry/retry.go:42-71 | for each behaviour of fn and the context only one outcome is possible |
| Retry.ThreeTries | internal/retry/retry.go:33-71 | with the shipped configuration: three tries, the first nil wins, a cancelled wait ends it, a third failure exhausts it |
| Retry.ShippedDelays | internal/retry/retry.go:33-60 | and waits of 100 ms, 200 ms and so on doubling, 5 s from the seventh on |
| Retry.DoIsDetermined | internal/retry/retry.go:42-71 | that description leaves no freedom: the environment determines trace and outcome |
| Retry.EveryAdmissibleTraceOccurs | internal/retry/retry.go:42-71 | and excludes nothing: every admissible trace is that of some environment |
| Retry.SuccessIffOneCallSucceeded | internal/retry/retry.go:45-49 | at most one call of fn succeeds, and Do returns nil exactly when one did |
| Retry.ExactBackoffIff | internal/retry/retry.go:56-60 | all waits are min(2^(a-1) * base, max) if and only if 2^(MaxAttempts-2) * base fits in int64, or the base is one nanosecond and the platform's out-of-range conversion is at least the cap |
| Retry.ExactBackoffForDefaultBase | internal/retry/retry.go:33-37 | with the 100 ms base that means exactly up to 38 attempts |
| Retry.FirstOverflowIsNegative | internal/retry/retry.go:57-60 | the first product to leave int64 wraps to a negative wait, so the cap does not apply |
| Retry.WaitsNeverDecrease | internal/retry/retry.go:56-60 | where the backoff is exact, later waits are at least as long |
| Retry.TotalWaitClosedForm | internal/retry/retry.go:56-60 | and the first n waits sum to (2^c - 1) * base + (n - c) * max, c being how many stay below the cap |
| Redis.FamiliesDisjoint | internal/ratelimit/limiter.go:47 | rate, user and preferences keys never coincide, whatever the user ids contain |
| Redis.CacheKeysInjective | internal/store/cache.go:39-71 | a cache key determines its user |
| Redis.RateKeyParses | internal/ratelimit/limiter.go:47 | a rate key reads back to its user and channel for every user id, colons included, if the channel has no colon |
| Redis.RateKeyInjective | internal/api/handler.go:118-131 | for the four validated channels two requests share a counter exactly when user and channel agree |
| Redis.UnvalidatedChannelsCollide | internal/api/handler.go:119-128 | without the channel check two different users could share one |
| Redis.Server.Incr | internal/ratelimit/limiter.go:51 | Environment, no result of its own: reply and keyspace of an INCR that may fail before or after taking effect |
| Redis.Server.Expire | internal/ratelimit/limiter.go:62 | Environment, no result of its own: the same for EXPIRE, which does nothing on a missing key |
| Redis.Server.Get | internal/store/cache.go:42 | Environment, no result of its own: value, redis.Nil or error |
| Redis.Server.Set | internal/store/cache.go:63 | Environment, no result of its own: the entry with its deadline, or nothing when refused |
| RateProtocol.ProtocolInvariant | internal/ratelimit/limiter.go:45-69 | in every reachable state at most one EXPIRE is outstanding, on the key's current lifetime, which is live without deadline; the counter is the number of calls that reached it; lifetimes start at least a window apart; answers never exceed min(calls, limit) |
| RateProtocol.StepKeepsInv | internal/ratelimit/limiter.go:51-68 | each INCR, EXPIRE, loss, failure, tick or foreign write keeps that invariant |
| RateProtocol.RunIsLater | internal/ratelimit/limiter.go:45-69 | from any state of a run to any later one, lifetimes and deadlines only move forward |
| RateProtocol.AnswersDiffer | internal/ratelimit/limiter.go:51-68 | no two allowed calls of one lifetime got the same count |
| RateProtocol.NextLifeIsLater | internal/ratelimit/limiter.go:58-65 | a later lifetime begins after every answer of an earlier one, and a window after the answer that set the deadline |
| RateProtocol.WindowBound | internal/ratelimit/limiter.go:45-69 | in every half-open interval of one window at most 2 * limit - 1 calls on a key are allowed without error, in every interleaving and however late an EXPIRE runs |
| RateProtocol.WindowBoundIsAttained | internal/ratelimit/limiter.go:45-69 | a run that reaches this bound |
| RateProtocol.SlidingGuaranteeIff | internal/ratelimit/limiter.go:11-23 | "at most limit in any window" holds of all runs if and only if limit <= 1 |
| RateProtocol.HistoryIsExact | internal/ratelimit/limiter.go:51-68 | the recorded calls and answers of a lifetime are the number of events of the run that made them |
| RateProtocol.LifetimeIsExact | internal/ratelimit/limiter.go:51-68 | within one lifetime at most min(calls, limit) calls are allowed without error, exactly that many when none met an error and the lifetime is over or has no EXPIRE under way |
| RateProtocol.LostExpireCapsForever | internal/ratelimit/limiter.go:61-64 | a key whose only EXPIRE was lost never gains a deadline and allows at most limit calls without error, ever |
| RateProtocol.ExpireCanBeLost | internal/ratelimit/limiter.go:61-64 | and a key does lose its only EXPIRE, by an error or because the caller is gone |
| Limiter.Limiter.Allow | internal/ratelimit/limiter.go:45-69 | rejected exactly when INCR, and EXPIRE where it is due, went well and the count is above the limit; every error is reported and lets the call through; the call is counted either way, the first of a window starts it and later ones leave its end alone |
| Limiter.SoloRun | internal/ratelimit/limiter.go:45-69 | such a call is a run of the protocol that ends with its verdict |
| Store.Database.Save | internal/store/postgres.go:57-72 | Environment, no result of its own: the row is added unless the id exists or the user does not; the error says nothing about a lost reply |
| Store.Database.Insert | internal/store/postgres.go:108-121 | Environment, no result of its own: the same for delivery_logs, whose notification must exist |
| Store.Database.UpdateDeliveryStatus | internal/store/postgres.go:123-130 | Environment, no result of its own: status and error text of one row, no error on a missing one |
| Store.Database.ExistsSent | internal/store/postgres.go:133-146 | Environment, no result of its own: whether some row of the notification is marked sent |
| Store.Database.FindUserByID | internal/store/postgres.go:150-163 | not found, an error when a column is NULL, otherwise the columns of the row |
| Store.Database.FindPreferences | internal/store/postgres.go:166-188 | every channel on when there is no row, an error when a column is NULL, otherwise the columns of the row |
| CacheProtocol.BoundedStaleness | internal/store/cache.go:38-91 | every value a lookup answers was the database's at an instant of the run, and its age is below the cache lifetime plus the delay of the fill it came from, also when an older fill overwrites a newer one |
| CacheProtocol.StalenessIsAttained | internal/store/cache.go:38-67 | a run in which a lookup answers a user that the database held ttl + d - 1 ago and not since, d being the delay of the fill |
| CacheProtocol.OriginsHold | internal/store/cache.go:56-66 | every decodable entry, pending fill and answer goes back to a database read and a SET of the run, with the deadline that SET gave |
| CacheProtocol.CacheIsTransparent | internal/store/cache.go:38-91 | while the tables do not change, every lookup of every run from a consistent cache answers what the store would, not-found and default preferences included, unless its own database read failed |
| CacheProtocol.StepKeepsAgreement | internal/store/cache.go:41-66 | each step keeps entries, fills and answers equal to the store's |
| CacheProtocol.HitIsServed | internal/store/cache.go:42-48 | a GET that Redis answers with a live document of the right kind ends the lookup with it |
| CacheProtocol.ReadsFollowMisses | internal/store/cache.go:50-56 | the database is read only after the lookup's own GET failed, found nothing live or met undecodable bytes |
| CacheProtocol.FillIsServed | internal/store/cache.go:42-64 | what one lookup stored is what the next ones answer, without the database, for ttl and as long as nothing else happens to the entry |
| Cache.UserCache.FindByID | internal/store/cache.go:38-67 | a live cached user is served and nothing changes; otherwise the row, not-found or the database's error, and a good row is stored for ttl unless the SET is refused |
| Cache.UserCache.FindPreferences | internal/store/cache.go:70-91 | the same for preferences, every channel on when there is no row |
| Cache.SoloRun | internal/store/cache.go:38-91 | such a lookup is a run of the protocol with that answer |
| Delivery.StepKeepsInv | internal/worker/worker.go:77-150 | every step of every worker, crash and late statement keeps the invariant that each log row has exactly one keeper and is delivered exactly when its status, or its keeper, says so |
| DeliveryLaws.ReachableInv | internal/worker/worker.go:77-150 | it holds in every reachable state |
| DeliveryLaws.StepKeepsCounts | internal/worker/worker.go:85-140 | each step keeps the two counting laws of the next row |
| DeliveryLaws.DeliveryBound | internal/worker/worker.go:85-140 | per notification: rows marked sent plus invocations past the check plus late sent-updates never exceed K plus the sent-updates left in flight and not dropped; successful Sends equal rows marked sent plus lost acknowledgements plus unrecorded plus late ones; hence at most K plus one for each acknowledgement lost or left in flight, each counted once |
| DeliveryLaws.BoundIsAttained | internal/worker/worker.go:85-140 | for every K and every mix of acknowledgements lost to a crash and left in flight, a run with K plus that many Sends of one notification |
| DeliveryLaws.AtMostOnceIff | internal/worker/worker.go:81-93 | "never delivered twice while no acknowledgement is lost" holds of all runs if and only if K <= 1 |
| DeliveryLaws.NoGhostDeliveries | internal/worker/worker.go:95-140 | successful Sends map injectively to rows of their notification that are never failed, and every row marked sent has a Send behind it |
| DeliveryLaws.SendsFollowInserts | internal/worker/worker.go:110-123 | a Send happens only under a pending row inserted before it, under which none has succeeded yet |
| DeliveryLaws.IdempotencyIsPermanent | internal/store/postgres.go:123-146 | a row marked sent stays so for ever, and the set of invocations that can still send its notification only shrinks |
| DeliveryLaws.LaterChecksSkip | internal/worker/worker.go:85-93 | each later check ends its invocation without insert or Send |
| DeliveryLaws.RowLifeCycle | internal/worker/worker.go:100-140 | rows are created pending, only their own invocation's statement changes them, at most once, to sent or failed |
| DeliveryLaws.PendingRowsAreExplained | internal/worker/worker.go:95-140 | the pending rows are exactly those of invocations in flight, of updates left in flight and of interrupted invocations, each row in one of these only |
| DeliveryLaws.LateStatementsLand | internal/worker/worker.go:110-138 | a statement whose worker has gone may still land: an insert adds its pending row, an update marks its row sent or failed |
| Worker.TraceIsPlayable | internal/worker/worker.go:118-124 | at each event of a retry trace the worker stands where the protocol allows that event |
| Worker.Replay | internal/worker/worker.go:118-124 | every trace of the retry loop is a run of the protocol's send phase |
| Worker.Worker.Process | internal/worker/worker.go:77-150 | one call is a run of the protocol. No answer to the check: an error and nothing written; a notification marked sent: skipped; a failed insert: an error; otherwise up to three tries as answers and wakeups decide, sent exactly when one succeeded, and a row with notification, channel, attempt 1, status and error text accordingly, pending when the update was refused; the three counters go with it |
| Worker.Worker.Run | internal/worker/worker.go:51-73 | over every prefix of the loop: one call for each message that decodes, in order, made where the one before it ended, each with the ending and the table that its fate and the state it met decide; the sent, failed and skipped counters rise by the calls that ended that way, so that messages decoded equal their sum plus the database-error returns; it stops only at a context error |
| Worker.LoopIsRun | internal/worker/worker.go:51-73 | such a sequence of calls, with the reads between them, is a run of the protocol by this worker alone |
| Worker.Worker.Turn | internal/worker/worker.go:54-72 | one turn of the loop: a call exactly when the read delivers a notification that decodes, an end exactly at a context error |
| Worker.FetchedInOrder | internal/kafka/consumer.go:50-65 | the notifications a loop handles are those of its fetches that deliver a message that decodes, in order, none left out |
| Worker.Worker.Deliver | internal/worker/worker.go:116-142 | the row and the counters after the retried Send and the update, for every outcome; the waits between the tries are 100 ms and 200 ms |
| Broker.Producer.Publish | internal/kafka/producer.go:48-77 | Environment, no result of its own: an error without a route; otherwise the message is appended, also when the reply is lost, and possibly in several copies |
| Broker.Consumer.ReadOne | internal/kafka/consumer.go:50-65 | Environment, no result of its own: a message of the log, an undecodable one, a context error or a read error |
| Broker.EveryChannelIsRouted | internal/config/config.go:70-75 | all four channels route to the one topic |
| Broker.GroupsAreSeparate | internal/config/config.go:70-75 | in a consumer group of its own each, so that every worker is handed every message |
| ApiProtocol.ChannelOf | internal/api/handler.go:118-128 | accepted are exactly the names of the four channels |
| ApiLaws.CacheStepEnabled | internal/api/handler.go:96-216 | every step of a request is a step of the cache protocol |
| ApiLaws.RateStepAgrees | internal/api/handler.go:131-141 | and of the rate protocol of any watched key, with the same effect on the shared keyspace |
| ApiLaws.StepKeepsInv | internal/api/handler.go:96-216 | each step keeps: answered lookups, passed gate, saved row and equal messages behind every phase of a request and every message |
| ApiLaws.AnswerWasTrue | internal/api/handler.go:143-156 | a request's lookup answered with what the database held, at most the lifetime plus its fill's delay ago |
| ApiLaws.PublishedWasGated | internal/api/handler.go:143-192 | at an instant within the staleness bound, the database held for every published message's user no preferences row, or one whose column for the channel was true (email, sms, push for both phones) and none NULL; and a users row with the message's email, phone and token |
| ApiLaws.OptOutTakesEffect | internal/api/handler.go:151-166 | if from time t on the user has a preferences row that does not turn the channel on and no fill takes longer than d, whatever is published there was gated before t + ttl + d |
| ApiLaws.Provenance | internal/api/handler.go:184-215 | every message is a saved notification, every 202 has its row and its message, all messages of one request are copies of one |
| ApiLaws.PublishRateBound | internal/api/handler.go:131-192 | per user and channel at most 2 * limit - 1 requests reach the topic on error-free rate checks answered within one window |
| ApiLaws.WatchedMessages | internal/ratelimit/limiter.go:47 | the requests counted there are exactly those of that user and channel |
| Replies.RateLimitedWasOver | internal/api/handler.go:130-140 | in every run a 429 has behind it an INCR of that request which Redis answered with a count above the limit; an error never rejects |
| Replies.RefusalsHaveReasons | internal/api/handler.go:142-166 | in every run a 404 has a failed user lookup behind it, "skipped" preferences with the column of the request's channel off, and a notification past the gate preferences with it on |
| Identity.OneMessagePerNotification | internal/api/handler.go:171-192 | messages about one notification id are copies of one another, also after failures and repeated writes |
| Identity.SaveFailsIff | internal/api/handler.go:185-189 | without a fault Save fails exactly when the user's row has gone meanwhile |
| Separation.StepsStayInTheirFamily | internal/ratelimit/limiter.go:47-62 | INCR and EXPIRE of one request leave every cache entry and every other user's or channel's counter as it was, a SET every counter and every other entry, all other steps the whole keyspace |
| Handler.Handler.SendNotification | internal/api/handler.go:96-216 | one call is a run of the request protocol that takes every outcome from the fate given, and carries out what Decision.Decide, an account of its own on entries, columns and outcomes, calls for: reply, message with every field, copies, and row. 202 only with the message appended; a message may also be appended under a 500; 400, 404, 429 and opted-out change neither table nor topic |
| Handler.FateDetermines | internal/api/handler.go:96-216 | the fate leaves no freedom: two such runs from one state to a reply are the same run |
| Decision.AcceptedRequests | internal/api/handler.go:96-216 | a valid request for a readable users row, with no preferences row or one that turns the channel on, nothing cached, the count below the limit and no fault, gets 202, its row, and a message with the row's email, phone and token |
| Decision.OptedOutRequests | internal/api/handler.go:158-166 | a channel whose column is off, in the cache or else in the row, is skipped |
| Decision.RateLimitedIff | internal/ratelimit/limiter.go:51-68 | a request is rate limited exactly when it is valid, INCR and where due EXPIRE went well, and the count is above the limit |
| Decision.RedisDown | internal/store/cache.go:50-53 | with Redis down the tables alone decide and nobody is rate limited |
| Decision.CachedUserIsEnough | internal/store/cache.go:42-48 | a request for a cached user never gets 404, whatever the database does |
| Handler.Handler.Serve | internal/api/handler.go:130-216 | the same as SendNotification for a valid request |
| Handler.UserFound | internal/store/cache.go:38-67 | the cache protocol's answer and the decision's user agree on every keyspace, table and fault |
| Handler.PrefsFound | internal/store/cache.go:70-91 | the same for preferences |
| Handler.Handler.CheckLimit | internal/api/handler.go:130-140 | the call goes on exactly when it is not limited in that sense, and only its own counter changes |
| Handler.Handler.Resolve | internal/api/handler.go:142-166 | the decision from the user lookup on is carried out |
| Handler.Handler.Gate | internal/api/handler.go:150-166 | the decision from the preferences lookup on is carried out |
| Handler.Handler.Queue | internal/api/handler.go:184-215 | 202 exactly when the row is saved and the write confirmed; messages appended exactly when the row is saved and the write applied; the row is added unless refused |
| Handler.Handler.Announce | internal/api/handler.go:191-215 | the same for the write alone |
| System.StepKeepsInv | internal/worker/worker.go:77-150 | with workers fed from the topic, everything a worker, a row, a late statement or a Send refers to has a message |
| System.InsertsAreLegal | internal/store/postgres.go:225-233 | in every run of requests and workers the primary and foreign key of delivery_logs are never violated |
| System.EverythingIsSaved | internal/store/postgres.go:211-233 | every log row and every Send refers to a saved notification |
| System.SendsWereGated | internal/worker/worker.go:118-124 | behind every successful Send stands one message, perhaps in copies, allowed by the preferences columns the database really held within the staleness bound |
| System.WorkRun | cmd/worker/main.go:75-94 | the workers' events of such a run, in order, are those of a run of the delivery protocol that shows each state of the workers, so its laws carry over |
| System.LaterChecksSkip | internal/worker/worker.go:85-93 | among them: once a row is marked sent, no later check leads to an insert or Send, whatever the topic delivers |
| System.MessageCanBeDelivered | internal/worker/worker.go:77-150 | from every state a message not recorded as sent can be handed to any idle worker, delivered and recorded, leaving everything else as it was |
| System.DeliveryBound | internal/worker/worker.go:85-140 | and the K-worker bound, for notifications that come from the topic |
| System.SendRateBound | internal/ratelimit/limiter.go:45-69 | what one window admits for a user and channel leads to at most K * (2 * limit - 1) successful Sends plus one for each of these notifications' own acknowledgements lost or left in flight |
| Shutdown.NothingRunsAfterClose | cmd/worker/main.go:105-116 | once any consumer is closed no worker does anything, and all have left Run |
| Shutdown.CloseComesLast | cmd/worker/main.go:105-116 | no worker event follows a Close, in any interleaving |
| Shutdown.WorkersFollowTheirLoop | internal/worker/worker.go:54-72 | in every interleaving a worker processes what it has just got, reads again after process and after any error that is not of a context, and leaves Run only by a context error of its own |
| Shutdown.WorkersActInTurn | internal/worker/worker.go:54-72 | each event of a worker comes where its loop is, and nothing but wg.Done follows its return |
| Shutdown.HowItEnds | cmd/worker/main.go:72-120 | run fails exactly when some channel has no route; a clean return has launched and closed every worker, a failing one closed none |
| Shutdown.StrandsIff | cmd/worker/main.go:51-80 | the database can be closed under a running worker if and only if the first channel is routed and a later one is not |
| Shutdown.ShippedRoutingIsSafe | internal/config/config.go:70-75 | with the shipped table neither happens, in whatever order the senders are walked |
| Shutdown.Supervisor.Run | cmd/worker/main.go:72-120 | what run and its workers attempt is the schedule of the given script; where that leads, with the outcome, the closed consumers and the workers' final state, is where run ends |
| Shutdown.PlanIsRun | cmd/worker/main.go:72-120 | the events of a schedule that are possible when their turn comes form a run of the machine |
| Shutdown.Supervisor.LaunchAll | cmd/worker/main.go:75-94 | the launch loop succeeds exactly when every channel is routed |
| Shutdown.Supervisor.StopAll | cmd/worker/main.go:98-109 | past wg.Wait every worker is done |
| Shutdown.Supervisor.CloseAll | cmd/worker/main.go:112-116 | each consumer is closed once, in order |

## Left out

- Routing, middleware, JSON responses, health, metrics endpoints and histograms: plumbing with only easy claims.
- `GetNotificationStatus`, `FindByID`, `UpdateStatus`: single statements; nothing calls the last, so `notifications.status` stays pending.
- Real providers: Send is an oracle. A Send that errs although the user was reached is counted as failed, so deliveries here are Sends that returned nil.
- Liveness: offsets are committed apart from processing, so messages may be lost and nothing promises eventual delivery.
- Kafka partitions, groups, batching and ordering: the balancer ignores the key, and redelivery and loss are choices of the environment.
- Channel affinity: `process` does not establish it. `DeliveryLog.Attempt` is always 1 and does not count retries.
- go-redis resending a command after a network error: each command is applied at most once.
- UUID syntax of ids, column types, NULL payloads and JSON details.
- The numbers in error texts ("after 3 attempts") and their wrapping.
- Sub-second rounding of EXPIRE, and pool limits, connection lifetimes and `pool.Close` waiting for borrowed connections.
- Log lines and `DeliveryDuration`.
- Worker.Worker.Run: one worker without interference and without a crash; all interleavings and crashes are those of `Delivery`, whose runs it is proved to follow.
- Handler.Handler.SendNotification: one request without interference and without cancellation; interleavings and abandoned requests are those of `ApiProtocol`.
- Shutdown.Supervisor.Run: its workers move by a given script; all interleavings are those of the machine.
- Broker.Consumer.ReadOne: any offset may be delivered next, so the offset kept by a group is not modelled.
- RateProtocol.SlidingGuaranteeIff: a window of one millisecond is excluded, since two instants are needed; real windows are whole seconds.
