# Zely backend: verified protocols

A Dafny model of the hand-written protocols of the Zely fintech backend, with proofs of what they keep.
A database, Redis or Kafka operation is one atomic step on a map or a queue; the logic between the steps
is what is verified. Each protocol that runs concurrently is a step machine whose runs are arbitrary
interleavings; beside it stands a class whose methods are the handlers as the source has them, proved
against the same specification functions.

| file | what it holds |
|---|---|
| Collections.dfy, Sums.dfy | options and distinct lists; sums over the documents of a collection |
| Projections.dfy | the balance-summary read model: transfers, refunds, fundings, reversals |
| Balances.dfy | what the balances and totals of the read model are after a run, read off the payloads |
| Claims.dfy, ClaimTimes.dfy, ClaimRouting.dfy, ClaimStore.dfy | the versioned claim of an event, how long it protects its holder, and the transaction around processor and completion |
| ExactlyOnce.dfy | the read model as the fold of the committed events |
| RetryLadder.dfy, RetryLadderSafety.dfy, RetryLadderTheorems.dfy, RetryLadderProgress.dfy | one event's way through main topic, retry levels and dead-letter queue |
| RetryPolicy.dfy, RetryTopics.dfy, RetryDelivery.dfy | the level tables, the producers that work on the topics, and the topics beside the step machine |
| OutboxRouter.dfy, OutboxProgress.dfy | change records routed to topics, with crashes between send, mark and offset commit; where an undisturbed router gets to |
| RefreshRotation.dfy, RefreshTheorems.dfy, RefreshSessions.dfy, RevokeAll.dfy, RefreshService.dfy | refresh-token rotation with its grace marker and revoke-all, and what a login is good for |
| RateLimit.dfy, RateLimitRuns.dfy | the in-memory fixed-window limiter and the Redis script it stands in for |
| EmailPoller.dfy | the polling pass over the e-mail outbox, and the life of one row |
| Otp.dfy, OtpRaces.dfy | one-time passwords, sequential and interleaved |
| Fees.dfy | accruals, sweeps, waivers and refunds |
| Lockout.dfy | the login lockout schedule |

Amounts are integers (minor units). Clock readings, server answers and faults are parameters, so a
statement for all runs is a statement for all of them. Histories (claims handed out, runs, exchanges,
marker writes, produced offsets, refunds) are state that no step reads. What a handler does is stated a
second time without its own functions: over payloads, events, attempts or actions as they came in. A transaction reads a snapshot
and is aborted if a document it writes was written since; what it only read does not matter, and a first
upsert counts as a write because user ids are unique among the summaries.

Where a stated promise is not kept by the code, the model keeps the code and proves exactly when the
promise holds:

- The completing update of a claim names no topic. At-most-once holds exactly for groups in which an
  (event, retryCount) has one topic (ClaimRouting.SafeIffOneTopicEach); the retry group meets this.
- A reversal does not create the summaries it updates, so one whose transaction opened before a summary
  existed passes it by. The read model is then still the fold of the committed events, each once, but
  not in commit order (ExactlyOnce.ExactlyOnceRefinement, ExactlyOnce.CommitOrderIff).
- Vault balances are stored under FLEXIBLE, LOCKED or TARGET and totalled under VAULT
  (Projections.SumKeptIff).
- The no-level guard can fire only for events that enter with a count past the table
  (RetryLadderProgress.NoLevelIff); VAULT and RECONCILIATION retry topics are not subscribed to
  (RetryPolicy.SubscribedIff).
- A router group that crashes before its first stored offset starts from the end again
  (OutboxRouter.PassedIsProducedIff, OutboxRouter.FirstSessionCanMiss).
- A refresh whose marker Redis dropped makes a harmless repetition look like reuse, unless another
  refresh had marked the token (RefreshTheorems.RevokesIff, RefreshTheorems.GraceNeedsTheMarker).
- If writes of the undeclared nextRetryAt are dropped, one pass during an outage exhausts every
  claimable e-mail (EmailPoller.EmailPoller.PollOnce); and if those of enqueuedAt are, an e-mail that
  Redis lost after its dispatch is never taken up again (EmailPoller.ForgottenIff).
- The events topic of the wallet domain is declared but not routed (OutboxRouter.RoutedIff), and the
  first delay of each retry table is never waited for (RetryDelivery.LadderTakes).
- The OTP cool-down forgets creations whose code has expired or was invalidated (Otp.KeepsThrottleIff,
  Otp.InvalidationResetsThrottle), and overlapping creations can leave two usable codes
  (OtpRaces.OneUsableIff).
- A sweep whose later writes fail leaves SWEPT accruals without a COMPLETED sweep
  (Fees.SweepKeepsBackedIff).

The bound on admitted hits is 2m - 1 rather than 2m, and is reached.

## Model

| member | source | states |
|---|---|---|
| Projections.ApplyFrame | Backend-Api/src/events/reversalProcessor.evt.ts:135-158 | a handler run on an older snapshot whose written documents are unchanged installs what it would install now if and only if it missed nobody, created since, to whom an amount is due; only a reversal, which does not upsert, can miss anybody |
| Projections.SumKeptIff | Backend-Api/src/kafka/projections/transfer.projection.ts:273-427 | one event keeps totalBalance = main + savings + vault for every user if and only if no vault side moves the vault balance and an internal move names two different accounts (or agreeing balances); vault types are stored under one name and totalled under another |
| Projections.OrdinaryIsSound | Backend-Api/src/kafka/projections/transfer.projection.ts:29-35 | checking and savings accounts, and internal moves between two different types, meet that condition whatever the balances are |
| Projections.RunKeepsSums | Backend-Api/src/kafka/projections/transfer.projection.ts:197-427 | the summary invariant holds for every user after every run of ordinary transfers, fee refunds, fundings and reversals, first-time upserts included |
| Projections.VaultDepositBreaksSum | Backend-Api/src/kafka/projections/transfer.projection.ts:29-35 | every deposit into a FLEXIBLE, LOCKED or TARGET vault that changes the stored vault balance breaks the sum |
| Projections.NetStep | Backend-Api/src/events/reversalProcessor.evt.ts:135-158 | each event moves the sum over all users of totalCredit - totalDebit by exactly its inflow: a funding or refund adds its amount, transfers add nothing, a reversal reaches only users that have a summary |
| Projections.RunConservesNet | Backend-Api/src/kafka/projections/transfer.projection.ts:216-427 | over every run the net of all users grows by exactly the inflows |
| Projections.NetIsPayloadTotal | Backend-Api/src/kafka/projections/funding.projection.ts:113-138 | when every reversal finds both summaries, the net of a run is fundings + refunds + (reversalAmount - originalAmount), read off the payloads alone |
| Projections.BalanceSummaries.HandleTransactionCompleted | Backend-Api/src/kafka/projections/transfer.projection.ts:197-427 | the documents, updated one after the other, the second read seeing the first write, are afterwards what the payload says of every field of every user (FollowsPayload), and the effect of the event as specified |
| Projections.BalanceSummaries.HandleFundingProjection | Backend-Api/src/kafka/projections/funding.projection.ts:113-138 | the same of a funding; an unexpected event type changes nothing |
| Projections.BalanceSummaries.HandleTransferReversed | Backend-Api/src/events/reversalProcessor.evt.ts:135-158 | the same of a reversal: the two increments create no document |
| Projections.ApplyFollowsPayload | Backend-Api/src/kafka/projections/transfer.projection.ts:216-427 | every event stores for every user and field the balance that its payload states for it (the receiver's where two entries meet), keeps every other field, adds reversals to main and total, makes the total of the balances counted (the sender's first, the vault's only under VAULT), and adds to credit and debit what is due |
| Projections.PayloadDetermines | Backend-Api/src/kafka/projections/transfer.projection.ts:216-427 | the payload and the old read model leave no choice: whatever follows them is the event's effect |
| Balances.RunTotals | Backend-Api/src/kafka/projections/transfer.projection.ts:197-427 | after every run exactly the users that some event upserts, or that were there, have a summary, and their totalCredit and totalDebit are what the payloads since then owe them |
| Balances.LastNamedBalance | Backend-Api/src/kafka/projections/transfer.projection.ts:216-427 | after every run a stored balance is the one that the last event to state it stated, plus the reversals since |
| Balances.UnnamedBalance | Backend-Api/src/events/reversalProcessor.evt.ts:135-158 | a balance that no event states is what it was, plus the reversals the summary has seen |
| Balances.EveryInterleavingKeepsBalances | Backend-Api/src/events/mongo.wrapper.ts:27-72 | in every interleaving of claims, takeovers and transactions each balance is the one stated last in the serialization order, plus the reversals behind it |
| Claims.CompletionIsOwn | Backend-Api/src/events/idempotency.ts:166-193 | although the completing update names no topic, it can only match the worker's own claim where an (event, retryCount) of a group has one topic |
| Claims.StepKeepsInv | Backend-Api/src/events/idempotency.ts:98-214 | every atomic step (insert, find, takeover, begin, commit, retry, throw, fail, crash) of any number of workers keeps: granted versions distinct and never above the record's, strictly below it once it is COMPLETED or FAILED, and COMPLETED exactly when committed |
| Claims.ClaimSafety | Backend-Api/src/events/idempotency.ts:98-214 | in every interleaving at most one transaction with the processor's writes commits per claim, the claim is COMPLETED exactly when it did, and versions handed out on a record are distinct, deliveries with other retryCounts and their phantom version 0 included |
| ClaimTimes.GrantsAreApart | Backend-Api/src/events/idempotency.ts:126-148 | in every run under a monotone clock two claims handed out on one record, by an insert or by takeovers, are more than three minutes apart |
| ClaimTimes.GrantedIff | Backend-Api/src/events/idempotency.ts:98-155 | after every such run a delivery is handed its record if and only if the record was never handed out, or is still PROCESSING under the delivery's count and every earlier holder has had more than three minutes; otherwise it is not granted |
| ExactlyOnce.CommitKeepsSerialized | Backend-Api/src/events/mongo.wrapper.ts:27-54 | a commit that meets no write conflict extends the serialization by one transaction: at the end, or, for a reversal that missed a summary, just before the transaction that created it |
| ExactlyOnce.ExactlyOnceRefinement | Backend-Api/src/kafka/consumer/projection.consumer.ts:64-105 | in every interleaving of workers, duplicates, crashes, lost commit replies and takeovers the read model is the plain fold of the handlers over the committed events, each once, in commit order except that reversals may stand earlier; no event id of a one-topic group occurs twice, and the net totals are the inflows of exactly those events |
| ExactlyOnce.CommitOrderIff | Backend-Api/src/events/reversalProcessor.evt.ts:135-158 | the read model is the fold in commit order at every moment of a run if and only if no reversal of it committed past a summary, created since its snapshot, to which it owes an amount |
| ExactlyOnce.RacingReversalIsLate | Backend-Api/src/events/reversalProcessor.evt.ts:135-158 | for every read model, reversal and creating event that write different summaries there is a run in which that happens |
| ExactlyOnce.EveryRunKeepsSums | Backend-Api/src/kafka/consumer/projection.consumer.ts:64-105 | the summary invariant survives every interleaving of ordinary events, late reversals included |
| ClaimRouting.OneTopicEachIsSafe | Backend-Api/src/events/idempotency.ts:166-193 | no claim is committed twice if no (event, group, retryCount) is delivered on two topics |
| ClaimRouting.TwoTopicsCommitTwice | Backend-Api/src/events/idempotency.ts:166-193 | two deliveries that differ only in the topic have a run that commits one claim twice |
| ClaimRouting.SafeIffOneTopicEach | Backend-Api/src/events/idempotency.ts:166-193 | at-most-once holds in every run over a set of deliveries if and only if no (event, group, retryCount) occurs in it on two topics |
| ClaimStore.Database.InitIdempotency | Backend-Api/src/events/idempotency.ts:98-155 | the decision and the new collection, field by field, for each of the five branches: fresh, other retryCount, stale (version up by one, updatedAt now), fresh PROCESSING, finished |
| ClaimStore.Database.FailIdempotency | Backend-Api/src/events/idempotency.ts:203-213 | only a record with the expected version and retryCount becomes FAILED |
| ClaimStore.Database.CommitLoop | Backend-Api/src/events/mongo.wrapper.ts:39-50 | however many commit replies are lost, and whether or not they had reached the server, the writes are installed once |
| ClaimStore.Database.RunAttempt | Backend-Api/src/events/mongo.wrapper.ts:28-54 | one attempt commits exactly when the body returns, the claim matches and the commit is acknowledged; it follows the step machine's begin and commit |
| ClaimStore.Database.WithMongoTransaction | Backend-Api/src/events/mongo.wrapper.ts:27-72 | it returns exactly if the claim matches and the first attempt is acknowledged, or failed transiently without a trace and the second one is; the writes are installed once if either attempt's commit reached the server, and not at all otherwise |
| ClaimStore.Database.EachMessage | Backend-Api/src/kafka/consumer/transfer.consumer.ts:154-234 | an uninterrupted handler skips exactly a visible claim that is not stale; a granted delivery applies the event once with the claim COMPLETED if an attempt's writes got through, and otherwise not at all, with the claim FAILED where the consumer fails it and PROCESSING where, like the projection consumer, it does not; nothing else changes, and it is a run of the step machine |
| ClaimStore.ClaimStepsAgree | Backend-Api/src/events/idempotency.ts:98-155 | the claim steps of the machine, uninterrupted, give the branches of initIdempotency |
| ClaimStore.TransactionStepsAgree | Backend-Api/src/events/mongo.wrapper.ts:27-54 | begin and commit of the machine, uninterrupted, install the completed claim and the handler's effect |
| RetryLadderSafety.StepKeepsInv | Backend-Api/src/kafka/consumer/retry.consumer.ts:243-419 | every step of any handler, duplicate delivery or clock tick keeps the ladder invariant (one message per level in order, claims behind the last one FAILED, one holder at most, dead letters and times as below) |
| RetryLadderTheorems.ExactlyOneLiveCopy | Backend-Api/src/kafka/consumer/transfer.consumer.ts:154-234 | under arbitrary duplicate deliveries an event has exactly one live copy at every step: waiting on one topic, in one handler, committed, or dead |
| RetryLadderTheorems.SuccessCommits | Backend-Api/src/kafka/consumer/retry.consumer.ts:333-385 | in every reachable state a successful run of the processor completes its claim and publishes nothing |
| RetryLadderTheorems.FailureIsRouted | Backend-Api/src/kafka/retry.helpers/retry.handler.ts:17-64 | a failed run fails its claim and leaves one copy: on the next level for any error of a retry, on the level of its count for a transient error on the main topic, else on the dead-letter queue |
| RetryLadderTheorems.OtherCopiesAreSkipped | Backend-Api/src/kafka/consumer/retry.consumer.ts:313-335 | any other copy ends at its claim and changes nothing |
| RetryLadderTheorems.RowIsFinal | Backend-Api/src/kafka/consumer/dlq.consumer.ts:72-96 | a failed_events row is written once and for good, is a letter of the first topic's queue, and its event is dead for good: no claim of it is or will be COMPLETED and no handler holds it or will |
| RetryLadderTheorems.RetryBound | Backend-Api/src/kafka/consumer/retry.consumer.ts:243-308 | the message on level i carries retryCount i and levels are published in order, the processor runs at most N times, and the later no-level and second exhaustion guards never fire |
| RetryLadderTheorems.CoolDownAccumulates | Backend-Api/src/kafka/consumer/retry.consumer.ts:297-308 | the k-th retry is granted no earlier than the first retry publish plus levels[1..k].delayMs, for any table and delivery lag |
| RetryLadderTheorems.AlwaysFailingIsExact | Backend-Api/src/kafka/consumer/retry.consumer.ts:382-405 | an event that always fails transiently and is dead had exactly N runs, one publish per level, and its dead letters are exhaustions on the first topic's queue |
| RetryLadderProgress.AlwaysFailingReachesDlq | Backend-Api/src/kafka/consumer/retry.consumer.ts:382-405 | from every state that transient failures can lead to, whatever duplicates are under way, the event can be driven on to the dead-letter queue |
| RetryLadderProgress.OneDeadLetter | Backend-Api/src/kafka/consumer/retry.consumer.ts:249-269 | without redelivery an event has at most one dead letter, however it fails |
| RetryLadderProgress.NoLevelIff | Backend-Api/src/kafka/producer/retry.producer.ts:18-30 | the no-level guard of sendToRetry can fire if and only if the event enters with a count past the table's end |
| RetryPolicy.EveryLadderIsWellFormed | Backend-Api/src/kafka/retry.helpers/retry.policy.ts:2-160 | the two tables that a message meets have five levels each for every processor and aggregate type |
| RetryPolicy.TopicsAreDistinct | Backend-Api/src/kafka/retry.helpers/retry.policy.ts:2-90 | a retry topic belongs to one aggregate type and one level |
| RetryPolicy.SubscribedIff | Backend-Api/src/kafka/consumer/retry.consumer.ts:159-167 | what is published for an aggregate type is subscribed to exactly when it is not VAULT or RECONCILIATION |
| RetryPolicy.RetryGroupIsSafe | Backend-Api/src/kafka/consumer/retry.consumer.ts:313-354 | the many topics of the retry group meet the claim protocol's condition: no claim of it is committed twice |
| RetryPolicy.SentIsLadderDelivery | Backend-Api/src/kafka/consumer/retry.consumer.ts:243-318 | every message the ladder publishes is delivered with the count that names its level |
| RetryTopics.Broker.SendToDLQ | Backend-Api/src/kafka/producer/sendToDlq.ts:10-64 | no topic changes but the base topic's dead-letter queue, which keeps what it held and gets the envelope at its end if the send goes through; nothing the retry consumer reads is touched, and it never throws |
| RetryTopics.DeadLettersAreNotRetried | Backend-Api/src/kafka/consumer/retry.consumer.ts:159-167 | no dead-letter queue, of whatever topic, is among the topics the retry consumer reads |
| RetryTopics.Broker.SendToRetry | Backend-Api/src/kafka/producer/retry.producer.ts:10-66 | throws exactly without a policy or when the send fails; otherwise the topic of the count's level gets the same event with the same count and error, the base topic and the send time as createdAt, or the dead-letter queue gets it |
| RetryTopics.Broker.RetryOrDLQ | Backend-Api/src/kafka/retry.helpers/retry.handler.ts:17-64 | a failed event leaves one copy on one topic, field by field: on its level, stamped now, if transient and sendable, else on the dead-letter queue, and nowhere only if that send fails too |
| RetryTopics.Broker.OnRetryMessage | Backend-Api/src/kafka/consumer/retry.consumer.ts:243-419 | the last level is dead before it is processed; a failed retry goes to the level of the next count, stamped now, whatever the error was, and the handler throws, publishing nothing, exactly when there is no policy or the send fails; anything else publishes nothing |
| RetryDelivery.TopicsCarryTheLadder | Backend-Api/src/kafka/producer/retry.producer.ts:33-58 | in every run, for every listed aggregate type and processor, under every interleaving and redelivery, an event's envelopes on each retry topic are exactly the messages the ladder has sent to that level, with their count, createdAt and base topic, and its dead letters are as many as the ladder has buried |
| RetryDelivery.EnvelopesWait | Backend-Api/src/kafka/consumer/retry.consumer.ts:297-308 | so an envelope on the topic of level i carries the count i and the first topic's name, and was written no earlier than the first retry publish plus the delays of the levels before it |
| RetryDelivery.Accompany | Backend-Api/src/kafka/consumer/retry.consumer.ts:243-419 | calling the producers with the envelope of a handler's message does to the topics what TopicsCarryTheLadder asks of each step |
| RetryDelivery.LadderTakes | Backend-Api/src/kafka/retry.helpers/retry.policy.ts:2-90 | the accumulated waits of every ladder in seconds: 5, 12, 21, 32 for auth, 5, 12, 23, 53 for transfers, 30, 150, 750, 4350 for the others |
| OutboxRouter.StepKeepsInv | Backend-Api/src/kafka/config/debezium.outboxrouter.ts:69-135 | every insert, send, mark, offset commit, join and crash keeps the router's invariant |
| OutboxRouter.PassedMeansProduced | Backend-Api/src/kafka/config/debezium.outboxrouter.ts:101-122 | once the stored offset has passed a routable PENDING record of the group's own time, it was produced and its row is SENT, whatever crashed in between |
| OutboxRouter.SentMeansProduced | Backend-Api/src/kafka/config/debezium.outboxrouter.ts:101-114 | a row is SENT only after its PENDING record was produced |
| OutboxRouter.ProducedInLogOrder | Backend-Api/src/kafka/config/debezium.outboxrouter.ts:69-135 | records are produced in the order of the change topic, and none twice without a crash |
| OutboxRouter.ProducesAreBounded | Backend-Api/src/kafka/config/debezium.outboxrouter.ts:87-98 | the router's own updates cause no produce: there are at most as many as routable rows plus crashes |
| OutboxRouter.TrafficIsAtMostTwice | Backend-Api/src/kafka/config/debezium.outboxrouter.ts:111-114 | the document records are the rows plus the marked rows, at most twice the rows |
| OutboxRouter.PassedIsProducedIff | Backend-Api/src/kafka/config/debezium.outboxrouter.ts:32-58 | once an offset is stored, a routable PENDING record behind it is ever produced if and only if it lies in the group's own time or was produced already |
| OutboxRouter.MissedForGood | Backend-Api/src/kafka/config/debezium.outboxrouter.ts:32-58 | a record before the session that stored the first offset, and not produced by then, is never produced later |
| OutboxProgress.LeftAloneItRoutesAll | Backend-Api/src/kafka/config/debezium.outboxrouter.ts:69-135 | from every reachable state with a session open, undisturbed work reaches the end of the change topic, which it makes longer itself; then every PENDING row of the group's own time whose topic is routed is SENT, and each record still to be routed was produced once more and no other |
| OutboxRouter.RoutedIff | Backend-Api/src/kafka/config/kafka.topics.ts:1-73 | the router knows the events topic of every domain but the wallet's, and no other topic |
| OutboxRouter.FirstSessionCanMiss | Backend-Api/src/kafka/config/debezium.outboxrouter.ts:32-58 | a group that crashes before its first stored offset seeks to the end again and leaves an event PENDING for good |
| OutboxRouter.Router.EachMessage | Backend-Api/src/kafka/config/debezium.outboxrouter.ts:69-123 | the handler, stopped by any fault, is the specified sequence of steps and appends exactly the routed message |
| OutboxRouter.Router.UpdateOne | Backend-Api/src/kafka/config/debezium.outboxrouter.ts:111-114 | the guarded update marks a PENDING row, and only such a row, and its change record follows it |
| RefreshRotation.StepKeepsInv | Backend-Api/src/modules/auth/authservice.ts:536-625 | every step of concurrent refreshes, logins and revocations keeps: a current hash is unspent, on one device, and dead only if its session is inactive; issued hashes are unknown to others; spent marks are as written |
| RefreshTheorems.RotationIsLinear | Backend-Api/src/modules/auth/authservice.ts:578-625 | each token is exchanged at most once and obtained at most once, and what is exchanged came from a login or an earlier exchange on the device: exchanges form chains |
| RefreshTheorems.RevokedIsNeverExchanged | Backend-Api/src/infrastructure/helpers/session.helper.ts:305-361 | a token that is current when its session is revoked is never exchanged afterwards, whatever logins and refreshes follow |
| RevokeAll.RevokeAllIsFinal | Backend-Api/src/infrastructure/helpers/session.helper.ts:336-361 | once a revoke-all that a request entered has run to its end, with refreshes, logins and other revocations interleaved anywhere, no token that was current on any device when it entered is ever exchanged again |
| RevokeAll.StepKeepsWorking | Backend-Api/src/infrastructure/helpers/session.helper.ts:353-361 | while the list is worked through, a hash that was current when it was made is current at most on its own device, and only until that device's turn |
| RefreshTheorems.RevokesIff | Backend-Api/src/modules/auth/authservice.ts:548-573 | in every interleaving a request enters the revoke-all branch if and only if it looks the marker up, Redis answers, and no marker write for its token that Redis took lies within the grace period |
| RefreshTheorems.NoFalseReuse | Backend-Api/src/modules/auth/authservice.ts:548-581 | a token that any refresh marked within the last 30 s never leads to the revoke-all branch, whichever refresh won the race |
| RefreshTheorems.RotationMarksFirst | Backend-Api/src/modules/auth/authservice.ts:578-625 | with Redis taking the writes, every rotated token was marked before its compare-and-set and is covered for 30 s from the marker |
| RefreshTheorems.GraceNeedsTheMarker | Backend-Api/src/modules/auth/authservice.ts:578-625 | in every reachable state: a rotation followed by the same token revokes every session if and only if Redis dropped the rotation's marker and no other refresh had marked the token shortly before |
| RevokeAll.DisplacedByLoginIsReuse | Backend-Api/src/infrastructure/helpers/session.helper.ts:243-271 | a token that a login displaced, presented at any later time on an active session, revokes every session if and only if no refresh had marked it shortly before |
| RefreshService.AuthService.Login | Backend-Api/src/infrastructure/helpers/session.helper.ts:243-271 | the upsert gives the device, and only it, an active session with a fresh current token |
| RefreshSessions.ActiveIffLoggedInSince | Backend-Api/src/infrastructure/helpers/session.helper.ts:243-361 | in every interleaving the stored sessions are those of devices that logged in and did not expire since, and a stored session is active if and only if no logout and no step of a revoke-all has revoked its device since a login |
| RefreshSessions.CurrentTokenIsExchanged | Backend-Api/src/modules/auth/authservice.ts:536-625 | after every run, for a device that is logged in so, an uninterrupted refresh with its current token exchanges exactly this token for a new one |
| RefreshSessions.LoginIsUsable | Backend-Api/src/infrastructure/helpers/session.helper.ts:243-271 | in every state a login followed by an uninterrupted refresh with its token appends exactly that exchange |
| RefreshService.AuthService.RevokeSession | Backend-Api/src/infrastructure/helpers/session.helper.ts:305-323 | deactivates the device's session only |
| RefreshService.AuthService.RevokeAllSessions | Backend-Api/src/infrastructure/helpers/session.helper.ts:336-361 | deactivates every session but the excluded one and leaves the hashes alone |
| RefreshService.AuthService.RefreshToken | Backend-Api/src/modules/auth/authservice.ts:536-625 | which answer an uninterrupted refresh gives in every case, that only reuse changes other sessions, and that it is a run of the step machine, the reuse branch with its loop included |
| RefreshService.Unfolded | Backend-Api/src/modules/auth/authservice.ts:536-625 | what the step machine does with an uninterrupted request |
| RateLimit.MemoryRateLimitStore.Hit | Backend-Api/src/infrastructure/cache/memory-rate-limit.store.ts:17-27 | the new map and the answer of a hit, with the map still a map of at most MAX_KEYS keys |
| RateLimit.MemoryRateLimitStore.Sweep | Backend-Api/src/infrastructure/cache/memory-rate-limit.store.ts:29-32 | deleting expired keys while walking the map keeps exactly the open windows, in insertion order |
| RateLimit.MemoryRateLimitStore.MakeRoom | Backend-Api/src/infrastructure/cache/memory-rate-limit.store.ts:34-49 | sweeps, and only if the map is still full drops the oldest keys |
| RateLimit.MemoryRateLimitStore.DropOldestKeys | Backend-Api/src/infrastructure/cache/memory-rate-limit.store.ts:38-43 | the loop with its break drops the oldest tenth |
| RateLimit.SweptKeepsValid | Backend-Api/src/infrastructure/cache/memory-rate-limit.store.ts:29-32 | a key survives a sweep exactly if its window is open, with its entry unchanged |
| RateLimit.MadeRoomMakesRoom | Backend-Api/src/infrastructure/cache/memory-rate-limit.store.ts:34-49 | making room leaves fewer than MAX_KEYS keys |
| RateLimit.FullMapGivesUp | Backend-Api/src/infrastructure/cache/memory-rate-limit.store.ts:34-49 | a full map of open windows loses the 20,000 keys that have been in it longest, and one with a closed window only its closed windows |
| RateLimitRuns.RunStaysBounded | Backend-Api/src/infrastructure/cache/memory-rate-limit.store.ts:8-49 | after every sequence of hits and sweeps the map has at most MAX_KEYS keys |
| RateLimitRuns.StepKeepsOpen | Backend-Api/src/infrastructure/cache/memory-rate-limit.store.ts:17-49 | a step that neither hits nor evicts a key leaves its open window alone |
| RateLimitRuns.FallbackAnswersAsRedis | Backend-Api/src/infrastructure/cache/redis.cli.ts:37-42 | on any sequence of hits and sweeps, windows of any length included, a hit on a key that was never evicted gets the count and remaining time of the Redis script, the repair branch and the caller's clamp included |
| RateLimitRuns.NeverOvercounts | Backend-Api/src/infrastructure/cache/memory-rate-limit.store.ts:17-49 | evictions or not, a reported count never exceeds the hits on the key in the last window |
| RateLimitRuns.AtMostTwiceTheLimit | Backend-Api/src/infrastructure/cache/memory-rate-limit.store.ts:17-27 | in every interval of the window's length at most 2m - 1 hits on a never evicted key get a count of at most m (m >= 1), none for m = 0 |
| RateLimitRuns.TheBoundIsReached | Backend-Api/src/infrastructure/cache/memory-rate-limit.store.ts:17-27 | for every m and window of at least 2 ms some history admits exactly 2m - 1 |
| EmailPoller.AttemptsAreFailures | Backend-Api/src/kafka/emails/email.poller.ts:99-158 | over a row's whole life attempts equals the failed dispatches, never exceeds MAX_ATTEMPTS, and FAILED means all were used |
| EmailPoller.ExhaustedIsNeverClaimed | Backend-Api/src/kafka/emails/email.poller.ts:76-109 | nothing that happens to an exhausted row lets it be claimed again |
| EmailPoller.GivenBackWaitsForBackoff | Backend-Api/src/kafka/emails/email.poller.ts:138-158 | a row given back is claimable exactly when its back-off is over, or at once if undeclared fields are dropped |
| EmailPoller.ClaimableWhenDue | Backend-Api/src/kafka/emails/email.poller.ts:76-111 | over every life of a row, deaths of the poller included, the filter matches it exactly when its story says so: at once when new, after 30, 60, 120 or 300 s when given back, two minutes after a claim and ten after a dispatch that led nowhere, never when delivered or after five failures; undeclared fields stored or dropped |
| EmailPoller.ForgottenIff | Backend-Api/src/kafka/emails/email.poller.ts:76-111 | a row can never be claimed again if and only if it is DELIVERED, has failed five times, or was dispatched where enqueuedAt is not stored; every other row is claimable from ten minutes after what happened last, until it is claimed |
| EmailPoller.IterationIsLife | Backend-Api/src/kafka/emails/email.poller.ts:75-173 | an iteration of the pass over all rows is a claim, perhaps a delivery, and the end of the dispatch in the life of the claimed row, and at most a delivery in the others |
| EmailPoller.IterationDoesWork | Backend-Api/src/kafka/emails/email.poller.ts:75-173 | every iteration, whatever fails and whatever the worker delivers meanwhile, lowers 2(MAX_ATTEMPTS - attempts) + claimable summed over the rows |
| EmailPoller.EmailPoller.FindOneAndUpdate | Backend-Api/src/kafka/emails/email.poller.ts:76-111 | claims the oldest claimable row, or nothing exactly when there is none; which rows these are is ClaimableWhenDue |
| EmailPoller.EmailPoller.Dispatch | Backend-Api/src/kafka/emails/email.poller.ts:113-173 | the row and the queue after each outcome of adding and updating |
| EmailPoller.EmailPoller.PollOnce | Backend-Api/src/kafka/emails/email.poller.ts:69-174 | a pass ends and leaves nothing claimable unless it throws; rows it did not claim are untouched, exhausted ones are not claimed, the oldest come first, none twice while nextRetryAt is stored; if it is dropped, a pass of failures exhausts every claimable row at once |
| OtpRaces.StepKeepsInv | Backend-Api/src/modules/helpers/otp.manager.ts:124-201 | every step of concurrent verifications, creations, invalidations and expiry keeps: a row's attempts are its counted failures within its limit, and it is consumed exactly when it succeeded |
| OtpRaces.AttemptsAreBounded | Backend-Api/src/modules/helpers/otp.manager.ts:153-194 | in every interleaving attempts never exceed maxAttempts and a row succeeds at most once, also for rows deleted since |
| OtpRaces.UninterruptedVerify | Backend-Api/src/modules/helpers/otp.manager.ts:117-201 | the steps of an uninterrupted verification do what the sequential operation does |
| OtpRaces.OneUsableIff | Backend-Api/src/modules/helpers/otp.manager.ts:88-108 | in every interleaving at most one code per identifier and purpose is usable at every moment, if and only if no creation inserts its row while an unconsumed row of the pair is stored |
| OtpRaces.SerialNeverDoubles | Backend-Api/src/modules/helpers/otp.manager.ts:88-108 | schedules in which every insert has a clear of its pair after the pair's last insert meet that condition, whatever else is interleaved |
| OtpRaces.TwoCreationsRace | Backend-Api/src/modules/helpers/otp.manager.ts:88-108 | for every pair two overlapping creations violate it |
| Otp.SequentialRunsAreSafe | Backend-Api/src/modules/helpers/otp.manager.ts:47-201 | run one after the other, operations leave at most one unconsumed row per identifier and purpose, compare at most maxAttempts codes with a row and let it succeed once |
| Otp.CreatedCodeWorks | Backend-Api/src/modules/helpers/otp.manager.ts:47-201 | a created code, whatever happens to other pairs and however often it is guessed wrong, is the one a verification finds, and is accepted if and only if it is given right before its minutes are over and after fewer wrong guesses than allowed |
| Otp.CeilingCountsUsedCodes | Backend-Api/src/modules/helpers/otp.manager.ts:239-252 | in every reachable state the hourly ceiling counts the codes of the last hour that were used and the open one, not the codes created |
| Otp.ThrottledCreatesAreApart | Backend-Api/src/modules/helpers/otp.manager.ts:222-237 | a throttled creation comes at least the throttle after an earlier one, if the codes created since outlast it and nothing invalidates them |
| Otp.KeepsThrottleIff | Backend-Api/src/modules/helpers/otp.manager.ts:222-252 | for every identifier and purpose a configuration keeps its throttle in every run if and only if it has none, its ceiling admits nothing, or its codes live at least as long as the throttle and nothing invalidates them |
| Otp.ShippedConfigsKeepThrottle | Backend-Api/src/modules/helpers/otp.manager.ts:301-358 | each of the seven shipped configurations keeps its throttle exactly in the runs without invalidation |
| Otp.InvalidationResetsThrottle | Backend-Api/src/modules/helpers/otp.manager.ts:281-288 | in every state and for every pair, after an invalidation a throttled creation is refused exactly for consumed codes, too recent or too many |
| Otp.OTPManager.EnforceRateLimit | Backend-Api/src/modules/helpers/otp.manager.ts:214-252 | refuses exactly when some row is younger than the throttle or the last hour has maxPerHour rows; the seconds it names are the fewest after which the throttle is over |
| Otp.OTPManager.Create | Backend-Api/src/modules/helpers/otp.manager.ts:47-112 | a refused creation changes nothing; otherwise the active rows are replaced by the new one |
| Otp.OTPManager.Verify | Backend-Api/src/modules/helpers/otp.manager.ts:117-201 | the answer and the new rows for every branch |
| Otp.OTPManager.Invalidate | Backend-Api/src/modules/helpers/otp.manager.ts:281-288 | afterwards no code of the identifier and purpose can be found for verification, and exactly the consumed and the other pairs' rows remain, unchanged |
| Fees.GrossIsAccountedFor | Backend-Api/src/modules/fee/fee.admin.service.ts:28-77 | gross = unswept + swept + waived for every collection and currency |
| Fees.SweepKeepsBackedIff | Backend-Api/src/modules/fee/fee.admin.service.ts:164-231 | after a sweep each SWEPT accrual belongs to a COMPLETED sweep whose total and count are those of its accruals, if and only if all writes were stored or no accrual was written; the catch block cannot repair it |
| Fees.RunsStayBacked | Backend-Api/src/modules/fee/fee.admin.service.ts:129-231 | that holds after every run whose sweeps are stored |
| Fees.RunsStayReconciled | Backend-Api/src/modules/fee/fee.admin.service.ts:28-77 | the swept amount of the statistics equals the sum of the completed sweeps' totals after every such run |
| Fees.FinalStaysFinal | Backend-Api/src/modules/fee/fee.admin.service.ts:129-231 | SWEPT and WAIVED are final, whatever fails |
| Fees.VerdictStands | Backend-Api/src/modules/fee/fee.admin.service.ts:129-487 | in every run an accrual is what the first operation that decides about it made of it (a stored waiver, a refund that finds user, ledgers, wallets and cover, or a sweep of its currency whose update reaches it), and its amount, currency and payer never change |
| Fees.RefundsAreKept | Backend-Api/src/modules/fee/fee.admin.service.ts:289-487 | the refunds of a run are exactly those whose accrual waits, whose user, ledgers, wallets and cover are there and whose transaction commits |
| Fees.GrossIsWhatAccrued | Backend-Api/src/modules/fee/fee.admin.service.ts:28-77 | gross grows by exactly the fees accrued, whatever is swept, waived or refunded |
| Fees.RefundsExplainBalances | Backend-Api/src/modules/fee/fee.admin.service.ts:289-487 | each accrual is refunded at most once, and every wallet is its start plus the refunds of that account |
| Fees.RunsConserveMoney | Backend-Api/src/modules/fee/fee.admin.service.ts:386-397 | no run changes the sum of all wallets: a refund keeps revenue plus user balance |
| Fees.RevenueStaysCovered | Backend-Api/src/modules/fee/fee.admin.service.ts:345-348 | refunds never overdraw the revenue wallet |
| Fees.FeeAdminService.GetStats | Backend-Api/src/modules/fee/fee.admin.service.ts:28-77 | returns the four sums, which add up |
| Fees.FeeAdminService.SumAmounts | Backend-Api/src/modules/fee/fee.admin.service.ts:178-178 | the fold over the pending accruals is their sum |
| Fees.FeeAdminService.WaiveFee | Backend-Api/src/modules/fee/fee.admin.service.ts:129-161 | the error or the waived accrual, and no other change |
| Fees.FeeAdminService.SweepAccruals | Backend-Api/src/modules/fee/fee.admin.service.ts:164-231 | the books and the answer for each way the writes can end; the sweep's record is COMPLETED exactly if all were stored and FAILED exactly if the catch block's own write was |
| Fees.FeeAdminService.WaiveAndRefund | Backend-Api/src/modules/fee/fee.admin.service.ts:289-495 | the first failing check decides the error; an aborted transaction changes nothing; a committed one moves the amount and waives the accrual |
| Lockout.LockoutBound | Backend-Api/src/modules/auth/authservice.ts:350-391 | since the last success the n-th wrong password is found at least the lock times in between after the m-th (m >= 5), that is 0, 1, 6, 11, 26 and then 41 + 60(n - 10) minutes after the fifth, and the lock is announced once |
| Lockout.LockedOutIff | Backend-Api/src/modules/auth/authservice.ts:350-391 | after any attempts a login is turned away if and only if there were five wrong passwords or more since the last success and the minutes of the last one are not over, the streak read off the attempts alone |
| Lockout.LockSumFromFive | Backend-Api/src/infrastructure/helpers/emit.audit.helper.ts:72-82 | the schedule in minutes for every count from five on, and its sum in closed form |
| Lockout.BoundIsMet | Backend-Api/src/infrastructure/helpers/emit.audit.helper.ts:72-82 | a run that meets the bound for every n |
| Lockout.Account.Login | Backend-Api/src/modules/auth/authservice.ts:350-430 | who is locked out, for how many minutes at most, what a failure and a success store, and that only the fifth failure announces the lock |

## Left out

- The front end, websockets, notifications, e-mail bodies, metrics, logging, controllers, validation schemas and admin listings: plumbing around the protocols.
- Transaction rows, wallet rows, currency and display names of the projections: written by upserts keyed on the event, they take no part in the sums.
- Deletion of claim records by their TTL: a claim that is gone can be made again, so the protocol's statements are for runs within the TTL.
- Handlers whose effects lie outside the transaction (password, pin), and `ext.idempotence.ts`, whose test for a new event does not give exclusive claims.
- The new updatedAt of a COMPLETED claim: only that of a PROCESSING claim is ever read.
- ExactlyOnce.ExactlyOnceRefinement: is about one group that reads one topic; an event that the retry ladder processes is claimed again under each level's own topic and count.
- RetryLadderTheorems.ExactlyOneLiveCopy: is for runs without a crash inside a handler, a failed broker send, a stale takeover or a throwing success callback, because the code gives no such guarantee with them; a fresh claim of a crashed handler is skipped on redelivery. It is about one event of one processor; a second processor of the same event shares the retry group's claims.
- RetryLadderTheorems.RowIsFinal: does not say that a row is written, because the sink subscribes to nine dead-letter topics only, and commits its offset when the write fails.
- RetryDelivery.TopicsCarryTheLadder: is for runs in which the broker takes what is sent; the producers' contracts also say what happens when it does not.
- RetryPolicy.SubscribedIff: does not model the envelope schema, which accepts fewer processors than the registry lists.
- OutboxRouter.PassedMeansProduced: covers one partition and one running router; a value that parses to JSON null, which the connector does not write, is not modelled.
- Router group rebalancing beyond losing the in-memory position, and outbox rows changed by anybody but the router.
- RefreshService.AuthService.RefreshToken: does not model the payload lookup before it (token.helper.ts), which can only reject more requests; signatures and hashing are fresh numbers.
- RevokeAll.RevokeAllIsFinal: the list is made when the branch is entered; the database's own update may in addition reach sessions that appear while it runs.
- Access tokens, their blacklist and the Redis mappings written after a rotation: caches beside the session documents.
- RateLimitRuns.FallbackAnswersAsRedis: takes a key to be gone at its deadline; the server's own comparison may keep it one millisecond longer.
- EmailPoller.EmailPoller.PollOnce: is for one poller and a clock that stands still during the pass; several pollers and BullMQ's own retries are not part of this model. DELIVERED is not final, because the poller's ENQUEUED update is unconditional.
- Otp.SequentialRunsAreSafe: bounds the comparisons of sequential runs; concurrent verifications may compare more codes than they count.
- The OTP hourly ceiling as a bound on creations: unconsumed rows are deleted by each creation, so the count of rows is not the count of creations.
- Otp.OTPManager.Create: takes the normalised identifier, the hash and the comparison as given functions, and the generated code as a parameter.
- Fees.RunsStayBacked: is for operations one after the other; concurrent sweeps and waivers are not modelled.
- Fees.FeeAdminService.WaiveAndRefund: the ledger entries, the wallet versions and the outbox event of a refund are not modelled; inside its own transaction the version filters always match.
- Fees.FeeAdminService.GetStats: the counts beside the amounts are not modelled.
- Lockout.LockoutBound: is for attempts one after the other; the reset of a password, which clears the counter, starts a new streak like a success does.
- KYC, vault locks, wallet holds, reconciliation and lookups: they would add only easy members.
