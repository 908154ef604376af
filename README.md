# payment-service-webhook — a Dafny model of the webhook delivery engine

This project models the core of a payment-provider webhook relay. The relay has six parts:

- **Intake.** It receives provider events over HTTP (`ProviderWebhookController`). It deduplicates them by idempotency key, stores them and fans each out as one Kafka message per subscribed endpoint (`EventProcessingService`).
- **Delivery.** It delivers an event to an endpoint as a signed POST. Every attempt is recorded with its outcome, and a failed attempt is retried with exponential backoff (`DeliveryService`, `SignatureService`).
- **Retry sweep.** A scheduled sweep re-delivers the attempts whose retry time has passed (`RetryService`).
- **Endpoint management.** Merchants create, update, delete and list endpoints and their event subscriptions (`WebhookService`). This uses the mapper (`WebhookMapper`) and the DTO validation constraints (`WebhookEndpointDTO`).
- **Repository queries.** Each query is a pure filter, sort or count over a sequence of rows (`*Repository`).
- **Entities.** Entities are values (datatypes).

**How state is modelled.** The tables are classes whose `seq` fields the save operations reassign. Ids come from a counter, `nextId`. Each service operation has two forms:

- a specification function over table values: `Deliver`, `ProcessIncoming`, `Sweep`, `Create`, `Update`, `Delete`, `Receive`;
- an imperative method on the service class, whose `ensures` ties its result and the new table state to that function.

The properties are lemmas about the specification functions.

**Behaviour the code has, which the model keeps:**
- **Attempt numbers.** An attempt is numbered one past the highest attempt of its (event, endpoint) pair. It is first stored IN_PROGRESS. It is then saved again as SUCCESS, RETRY_SCHEDULED or MAX_RETRIES_EXCEEDED. It is never left FAILED.
- **Null retry settings.** If `retryEnabled` is null, or `maxRetries` is null while retries are enabled, the failure path throws a `NullPointerException` while unboxing. The transaction then rolls back, the attempt is not stored, and the caller receives the circuit-breaker fallback record.
- **Null header values.** A custom header whose JSON value is null makes `value.toString()` throw inside the try block. The request is never sent, and the attempt is recorded as failed with that `NullPointerException`'s message.
- **Retry delay overflow.** The delivery transition schedules with the delay the code computes, overflow included (see "## Findings").
- **Foreign ids in an update.** The update mapper copies a non-null `dto.id` onto the managed endpoint. A different id makes the commit fail, and nothing is stored.
- **Retried rows stay due.** The retry sweep never updates the attempt rows it retries. They stay RETRY_SCHEDULED with their past retry time, so every later sweep picks them up again (`RetryService.RetriedAttemptsStayDue`).
- **Signature input.** The signature covers `payload.toString()` (`Crypto.render`), while the body is sent as the payload itself. An empty secret cannot build an HMAC key, so signing fails and verifying is false.
- **Create response.** The DTO that `createEndpoint` returns is built from the saved entity, whose subscription list is still empty. Its `events` are therefore `[]`, whatever was subscribed.
- **Create failures.** A null URL, or a repeated event type in `dto.events` (which breaks the unique constraint on (endpoint, event type)), makes the commit fail. The model checks these first and stores nothing. This equals the rolled-back transaction.
- **Column lengths.** The VARCHAR columns have the lengths the entities declare: provider 50, event type 100 (events and subscriptions), URL 500, and 255 for every unsized string column. A longer value fails its INSERT or UPDATE at commit, and the transaction rolls back. In intake the commit comes after the Kafka messages were sent. An event whose provider name, key, type or source is too long therefore leaves its messages queued, is not stored, and is answered 400 (`EventProcessingService.OverlongEventQueuedNotStored`, `ProviderWebhookController.OverlongProviderQueuedButRejected`). The same lengths fail `createEndpoint` and `updateEndpoint` with nothing stored. Only intake has sent anything by then.
- **Event status.** `updateEventStatus` is an empty stub, so an event that was fanned out stays PROCESSING.
- **Provider signature.** The provider signature check accepts every request, so the `X-Signature` header has no effect.
- **Missing event type.** A `null` event type (a known provider's payload without its type field) breaks the NOT NULL `event_type` column. The request is then rejected with nothing stored and nothing queued.
- **Null exception message.** The error reply is built with `Map.of`, which rejects a null value. An exception without a message therefore leaves the request unanswered (`Unanswered`, served as 500).

Each file is one Java class: `entities.dfy`, `dtos.dfy`, the four repository files, the five service files, `webhook_mapper.dfy` and `provider_webhook_controller.dfy`. `seqs.dfy`, `text.dfy` and `wrappers.dfy` hold generic helpers. Below, every source path is under `src/main/java/dev/dammak/paymentservicewebhook/` unless it starts with `src/test`.

## Model

| member | source | states |
|---|---|---|
| Entities.NewEndpoint | src/main/java/dev/dammak/paymentservicewebhook/entity/WebhookEndpoint.java:46-70 | a new endpoint has the builder defaults: ACTIVE, api version "v1", retries enabled, 3 retries, a 30 s timeout and no subscriptions |
| Entities.ParseWebhookStatus | src/main/java/dev/dammak/paymentservicewebhook/entity/WebhookEndpoint.java:75-77 | `valueOf` accepts a name only when that name is exactly the name of the status it returns |
| Entities.WebhookStatusRoundTrip | src/main/java/dev/dammak/paymentservicewebhook/entity/WebhookEndpoint.java:75-77 | parsing the name of any status gives back that status |
| Entities.SingleResult | src/main/java/dev/dammak/paymentservicewebhook/repository/WebhookEventRepository.java:29 | an Optional-returning query gives empty for no match, the row for one match, and an IncorrectResultSize error for more |
| Entities.IdTextInjective | src/main/java/dev/dammak/paymentservicewebhook/service/DeliveryService.java:139 | different ids have different texts, as different UUIDs have different `toString()` forms |
| SignatureService.ConstantTimeEquals | src/main/java/dev/dammak/paymentservicewebhook/service/SignatureService.java:69-84 | true exactly when both strings are non-null and equal. A null argument or a length mismatch gives false. For equal lengths the loop visits every index, with no early exit |
| SignatureService.XorZero | src/main/java/dev/dammak/paymentservicewebhook/service/SignatureService.java:80 | the XOR of two character codes is zero exactly when the codes are equal |
| SignatureService.OrZero | src/main/java/dev/dammak/paymentservicewebhook/service/SignatureService.java:80 | the accumulated OR is zero exactly when both operands are zero |
| SignatureService.HmacSignature | src/main/java/dev/dammak/paymentservicewebhook/service/SignatureService.java:50-61 | an empty secret cannot make an HMAC key and fails; any other secret gives the HMAC oracle's value |
| SignatureService.GenerateSignature | src/main/java/dev/dammak/paymentservicewebhook/service/SignatureService.java:30-38 | signs the payload's string rendering; any failure becomes RuntimeException "Failed to generate signature" |
| SignatureService.VerifySignature | src/main/java/dev/dammak/paymentservicewebhook/service/SignatureService.java:40-48 | true exactly when payload, signature and secret are present and the signature equals the HMAC of the payload; a failure gives false instead of an exception |
| SignatureService.SignThenVerify | src/main/java/dev/dammak/paymentservicewebhook/service/SignatureService.java:30-48 | a signature that was generated verifies against the payload's rendering under the same secret |
| SignatureService.EmptySecretRejected | src/main/java/dev/dammak/paymentservicewebhook/service/SignatureService.java:50-57 | with an empty secret, signing fails and no signature verifies |
| EventRepository.FindById | src/main/java/dev/dammak/paymentservicewebhook/repository/WebhookEventRepository.java:27 | present exactly when a row has the id, and then it is that row |
| EventRepository.FindByIdempotencyKey | src/main/java/dev/dammak/paymentservicewebhook/repository/WebhookEventRepository.java:29 | empty exactly when no row carries the key; a found event is a row with that key |
| EventRepository.AtMostOneWithKey | src/main/java/dev/dammak/paymentservicewebhook/entity/WebhookEvent.java:44-45 | under the unique key column, at most one row matches a key |
| EventRepository.IdempotencyLookupIsSingle | src/main/java/dev/dammak/paymentservicewebhook/repository/WebhookEventRepository.java:29 | under the unique key column the lookup never fails with a result-size error |
| EventRepository.FindByStatus | src/main/java/dev/dammak/paymentservicewebhook/repository/WebhookEventRepository.java:31 | exactly the rows with that status |
| EventRepository.FindByEventType | src/main/java/dev/dammak/paymentservicewebhook/repository/WebhookEventRepository.java:33 | exactly the rows with that event type |
| EventRepository.FindByProvider | src/main/java/dev/dammak/paymentservicewebhook/repository/WebhookEventRepository.java:35 | exactly the rows from that provider |
| EventRepository.FindStaleEvents | src/main/java/dev/dammak/paymentservicewebhook/repository/WebhookEventRepository.java:37-39 | exactly the PENDING rows created strictly before the cutoff |
| EventRepository.CountByStatusAndTimeRange | src/main/java/dev/dammak/paymentservicewebhook/repository/WebhookEventRepository.java:45-49 | the number of rows with the status and a creation time in the window, both ends included |
| EventRepository.WithStatus | src/main/java/dev/dammak/paymentservicewebhook/repository/WebhookEventRepository.java:41-43 | the row with the id gets the new status; every other row is unchanged |
| EventRepository.WithStatusKeepsKeys | src/main/java/dev/dammak/paymentservicewebhook/repository/WebhookEventRepository.java:41-43 | the status update changes only the status: ids, keys and every other field stay |
| EventRepository.WithStatusOfAppended | src/main/java/dev/dammak/paymentservicewebhook/service/EventProcessingService.java:66-81 | updating the status of the row just appended changes only that row |
| EventRepository.EventTable.UpdateStatus | src/main/java/dev/dammak/paymentservicewebhook/repository/WebhookEventRepository.java:41-43 | a status change of a stored event, by the `updateStatus` query or by the `save` of the managed event after `setStatus` (as intake does): the table after it is `WithStatus` of the table before |
| EventRepository.EventTable.RollBack | src/main/java/dev/dammak/paymentservicewebhook/service/EventProcessingService.java:31 | a failed commit of the transactional service restores the rows from before it; drawn ids stay drawn |
| EventRepository.EventTable.Insert | src/main/java/dev/dammak/paymentservicewebhook/service/EventProcessingService.java:66 | the saved event gets the next id and is appended |
| EndpointRepository.FindById | src/main/java/dev/dammak/paymentservicewebhook/repository/WebhookEndpointRepository.java:39-42 | present exactly when an endpoint with the id exists, and then it is that endpoint (also `findByIdWithMerchant`) |
| EndpointRepository.FindByIdUnique | src/main/java/dev/dammak/paymentservicewebhook/repository/WebhookEndpointRepository.java:39-42 | with unique ids, looking up a row's id finds that row |
| EndpointRepository.FindByMerchantId | src/main/java/dev/dammak/paymentservicewebhook/repository/WebhookEndpointRepository.java:26 | exactly the merchant's endpoints |
| EndpointRepository.FindByMerchantIdAndStatus | src/main/java/dev/dammak/paymentservicewebhook/repository/WebhookEndpointRepository.java:28-30 | exactly the merchant's endpoints with that status |
| EndpointRepository.FindByStatus | src/main/java/dev/dammak/paymentservicewebhook/repository/WebhookEndpointRepository.java:44 | exactly the endpoints with that status |
| EndpointRepository.CountByMerchantIdAndStatus | src/main/java/dev/dammak/paymentservicewebhook/repository/WebhookEndpointRepository.java:46 | the number of matching endpoints |
| EndpointRepository.FindActiveEndpointsByEventType | src/main/java/dev/dammak/paymentservicewebhook/repository/WebhookEndpointRepository.java:32-37 | exactly the ACTIVE endpoints that have an active subscription to the type |
| EndpointRepository.FanOutDistinct | src/main/java/dev/dammak/paymentservicewebhook/repository/WebhookEndpointRepository.java:32 | each endpoint appears at most once in the fan-out (DISTINCT) |
| EndpointRepository.NoSubscriptionsExcluded | src/test/java/dev/dammak/paymentservicewebhook/repository/WebhookEndpointRepositoryTest.java:86-102 | an endpoint without subscriptions is never in the fan-out |
| EndpointRepository.EndpointTable.Update | src/main/java/dev/dammak/paymentservicewebhook/service/WebhookService.java:109 | saving replaces the row with the same id and nothing else |
| MerchantRepository.FindById | src/main/java/dev/dammak/paymentservicewebhook/service/WebhookService.java:48-49 | present exactly when a merchant with the id exists |
| MerchantRepository.FindByApiKey | src/main/java/dev/dammak/paymentservicewebhook/repository/MerchantRepository.java:23 | empty exactly when no merchant has the key; a found merchant has it |
| MerchantRepository.FindByEmail | src/main/java/dev/dammak/paymentservicewebhook/repository/MerchantRepository.java:25 | empty exactly when no merchant has the email; a found merchant has it |
| MerchantRepository.FindActiveByApiKey | src/main/java/dev/dammak/paymentservicewebhook/repository/MerchantRepository.java:27-28 | a found merchant has the key and is ACTIVE |
| MerchantRepository.AtMostOneWithKey | src/main/java/dev/dammak/paymentservicewebhook/entity/Merchant.java:29-30 | under the unique api-key column, at most one merchant matches a key |
| MerchantRepository.ActiveLookupRestrictsLookup | src/main/java/dev/dammak/paymentservicewebhook/repository/MerchantRepository.java:23-28 | the active lookup is the plain lookup restricted to ACTIVE, and neither fails |
| MerchantRepository.ExistsByApiKey | src/main/java/dev/dammak/paymentservicewebhook/repository/MerchantRepository.java:30 | true exactly when some merchant has the key |
| MerchantRepository.ExistsMatchesLookup | src/main/java/dev/dammak/paymentservicewebhook/repository/MerchantRepository.java:23-30 | the existence check is true exactly when the lookup finds a merchant |
| MerchantRepository.ExistsByEmail | src/main/java/dev/dammak/paymentservicewebhook/repository/MerchantRepository.java:32 | true exactly when some merchant has the email |
| DeliveryRepository.FindByWebhookEventId | src/main/java/dev/dammak/paymentservicewebhook/repository/WebhookDeliveryRepository.java:26 | exactly the attempts for the event |
| DeliveryRepository.FindByWebhookEndpointId | src/main/java/dev/dammak/paymentservicewebhook/repository/WebhookDeliveryRepository.java:28 | exactly the attempts for the endpoint |
| DeliveryRepository.FindByStatusAndNextRetryAtBefore | src/main/java/dev/dammak/paymentservicewebhook/repository/WebhookDeliveryRepository.java:30-32 | exactly the rows with the status and a retry time strictly before the given time; a null retry time never matches |
| DeliveryRepository.InsertByAttemptDesc | src/main/java/dev/dammak/paymentservicewebhook/repository/WebhookDeliveryRepository.java:34-37 | inserting into a list sorted by descending attempt number keeps it sorted and adds exactly the new row |
| DeliveryRepository.SortByAttemptDesc | src/main/java/dev/dammak/paymentservicewebhook/repository/WebhookDeliveryRepository.java:34-37 | the result is sorted by descending attempt number and is a permutation of the input |
| DeliveryRepository.FindByEventAndEndpoint | src/main/java/dev/dammak/paymentservicewebhook/repository/WebhookDeliveryRepository.java:34-39 | exactly the attempts of the pair, as a permutation of their rows, highest attempt number first |
| DeliveryRepository.CountByEndpointAndStatusAndTimeRange | src/main/java/dev/dammak/paymentservicewebhook/repository/WebhookDeliveryRepository.java:49-56 | the number of attempts with the endpoint, the status and a creation time inside the window |
| DeliveryRepository.WindowIsInclusive | src/main/java/dev/dammak/paymentservicewebhook/repository/WebhookDeliveryRepository.java:52-54 | an attempt created exactly at either end of the window is counted |
| DeliveryRepository.DeliveryTable.Update | src/main/java/dev/dammak/paymentservicewebhook/service/DeliveryService.java:119 | the second save replaces the row with the same id and nothing else |
| DeliveryService.RetryDelay | src/main/java/dev/dammak/paymentservicewebhook/service/DeliveryService.java:163-167 | the intended backoff, `min(10·2^n, 3600)`, always lies in [0, 3600] |
| DeliveryService.RetryDelayDoubles | src/main/java/dev/dammak/paymentservicewebhook/service/DeliveryService.java:163-167 | each further attempt doubles the delay until the 3600 s cap |
| DeliveryService.RetryDelayMonotone | src/main/java/dev/dammak/paymentservicewebhook/service/DeliveryService.java:163-167 | the delay never decreases with the attempt number |
| DeliveryService.RetryDelayValues | src/main/java/dev/dammak/paymentservicewebhook/service/DeliveryService.java:163-167 | 20, 40, 80, 640 and 2560 s for attempts 1, 2, 3, 6 and 8; 3600 s from attempt 9 on |
| DeliveryService.Pow2Add | src/main/java/dev/dammak/paymentservicewebhook/service/DeliveryService.java:164 | powers of two multiply by adding exponents |
| DeliveryService.WrapLong | src/main/java/dev/dammak/paymentservicewebhook/service/DeliveryService.java:164 | Java `long` arithmetic: the result is congruent modulo 2^64 and lies in the `long` range; in-range values are kept |
| DeliveryService.PowAsLong | src/main/java/dev/dammak/paymentservicewebhook/service/DeliveryService.java:164 | `(long) Math.pow(2, n)` lies in [0, Long.MAX_VALUE] |
| DeliveryService.RetryDelayAsWritten | src/main/java/dev/dammak/paymentservicewebhook/service/DeliveryService.java:163-167 | the delay the code computes never exceeds 3600 s, but it is not bounded below |
| DeliveryService.AsWrittenAgreesBelowSixty | src/main/java/dev/dammak/paymentservicewebhook/service/DeliveryService.java:163-167 | below attempt 60 the code's delay equals the intended one |
| DeliveryService.RetryDelayOverflows | src/main/java/dev/dammak/paymentservicewebhook/service/DeliveryService.java:163-167 | from attempt 60 on, `long` overflow gives negative delays (attempt 60: -6917529027641081856; attempt 62: Long.MIN_VALUE; attempt 63: -10) |
| DeliveryService.RetryDelayFromSixtyThree | src/main/java/dev/dammak/paymentservicewebhook/service/DeliveryService.java:163-167 | from attempt 63 on, the saturated power times 10 wraps to a delay of -10 s |
| DeliveryService.PlusSeconds | src/main/java/dev/dammak/paymentservicewebhook/service/DeliveryService.java:152-157 | `plusSeconds` adds the delay, and throws a DateTimeException naming the epoch day when the result moves to a day outside the range of `LocalDate` |
| DeliveryService.SettledRetryTime | src/main/java/dev/dammak/paymentservicewebhook/service/DeliveryService.java:101-158 | a settled record has a retry time only when RETRY_SCHEDULED. That time is at most now + 3600 s, and below attempt 60 it is exactly now + the intended delay |
| DeliveryService.RetryOverflowSettles | src/main/java/dev/dammak/paymentservicewebhook/service/DeliveryService.java:111-167 | with more than 60 retries allowed, a failure of attempt 60 or 62 throws a DateTimeException from `plusSeconds` (so the attempt rolls back), and from attempt 63 on the retry is scheduled at now - 10 s |
| DeliveryService.MaxAttempt | src/main/java/dev/dammak/paymentservicewebhook/service/DeliveryService.java:169-175 | the largest attempt number of a non-empty history, attained by one of its rows |
| DeliveryService.NextAttemptNumber | src/main/java/dev/dammak/paymentservicewebhook/service/DeliveryService.java:169-175 | 1 for an empty history; otherwise one past the largest attempt number, above every existing one |
| DeliveryService.TruncateResponseBody | src/main/java/dev/dammak/paymentservicewebhook/service/DeliveryService.java:177-183 | null stays null; bodies of at most 1000 chars are unchanged; longer ones become their first 1000 chars followed by "..." (1003 chars) |
| DeliveryService.TruncateIdempotent | src/main/java/dev/dammak/paymentservicewebhook/service/DeliveryService.java:177-183 | a truncated body has at most 1003 chars and truncating it again changes nothing |
| DeliveryService.BaseHeaders | src/main/java/dev/dammak/paymentservicewebhook/service/DeliveryService.java:127-142 | the computed headers are exactly Content-Type, signature, event id, event type and timestamp |
| DeliveryService.RequestHeaders | src/main/java/dev/dammak/paymentservicewebhook/service/DeliveryService.java:127-150 | a signing failure is propagated, and a null custom value then throws a NullPointerException. Otherwise the header names are the computed ones plus the custom ones, each custom header's value wins, and every other header has its computed value |
| DeliveryService.SetAll | src/main/java/dev/dammak/paymentservicewebhook/service/DeliveryService.java:144-148 | setting the custom headers one by one gives the computed headers overridden by the custom values' texts; a null value throws a NullPointerException |
| DeliveryService.CreateHeaders | src/main/java/dev/dammak/paymentservicewebhook/service/DeliveryService.java:127-150 | the header map that the imperative construction builds is `RequestHeaders` |
| DeliveryService.SentRequestIsSigned | src/main/java/dev/dammak/paymentservicewebhook/service/DeliveryService.java:127-142 | unless a custom header overrides it, the signature header verifies against the payload rendering under the endpoint's secret |
| DeliveryService.Exchanged | src/main/java/dev/dammak/paymentservicewebhook/service/DeliveryService.java:75-101 | a header or signature failure inside the try ends in the catch block with its message, before anything is sent |
| DeliveryService.UnsignableNeverSent | src/main/java/dev/dammak/paymentservicewebhook/service/DeliveryService.java:75-101 | an unsignable payload is never sent and is recorded with "Failed to generate signature" |
| DeliveryService.NullHeaderNeverSent | src/main/java/dev/dammak/paymentservicewebhook/service/DeliveryService.java:144-147 | a custom header whose value is null is never sent: `value.toString()` throws inside the try, and the attempt fails with that NullPointerException's message |
| DeliveryService.SendRequest | src/main/java/dev/dammak/paymentservicewebhook/service/DeliveryService.java:75-81 | the send step's outcome is `Exchanged` |
| DeliveryService.Settled | src/main/java/dev/dammak/paymentservicewebhook/service/DeliveryService.java:83-167 | A response gives SUCCESS, with that status, the truncated body, deliveredAt and latency. An exception records its message and gives RETRY_SCHEDULED exactly when retries are enabled and the attempt is below maxRetries, with nextRetryAt = now + the delay the code computes (`RetryDelayAsWritten`); otherwise MAX_RETRIES_EXCEEDED. Never FAILED. A null retry setting throws a NullPointerException, and a retry time outside the range of `LocalDateTime` throws a DateTimeException. Identity fields are kept |
| DeliveryService.Settle | src/main/java/dev/dammak/paymentservicewebhook/service/DeliveryService.java:83-161 | the record that the field-by-field updates and `scheduleRetry` produce is `Settled` |
| DeliveryService.Deliver | src/main/java/dev/dammak/paymentservicewebhook/service/DeliveryService.java:48-125 | an exception leaves the delivery table as it was (rollback) |
| DeliveryService.MissingRowsRejected | src/main/java/dev/dammak/paymentservicewebhook/service/DeliveryService.java:56-60 | a missing event gives "Event not found", then a missing endpoint gives "Endpoint not found" |
| DeliveryService.AttemptAppendsOne | src/main/java/dev/dammak/paymentservicewebhook/service/DeliveryService.java:63-119 | once the rows are found, a completed attempt adds exactly one row, under a fresh id, holding the final record; the table stays valid |
| DeliveryService.DeliverAppendsOne | src/main/java/dev/dammak/paymentservicewebhook/service/DeliveryService.java:48-125 | each call adds exactly one row (its final record) or, on an exception, none; the table stays valid |
| DeliveryService.AttemptNumbersIncrease | src/main/java/dev/dammak/paymentservicewebhook/service/DeliveryService.java:169-175 | the new attempt belongs to the pair and is numbered above every earlier attempt of the pair; it is 1 for the pair's first attempt |
| DeliveryService.RetryScheduleBounded | src/main/java/dev/dammak/paymentservicewebhook/service/DeliveryService.java:101-167 | a scheduled retry is allowed by the endpoint and is due at most 3600 s after now. Below attempt 60 it is due exactly the intended delay after now, so in the future. Other outcomes have no retry time |
| DeliveryService.DeliveryFallback | src/main/java/dev/dammak/paymentservicewebhook/service/DeliveryService.java:190-201 | a FAILED record with attempt 1 and "Circuit breaker activated: " followed by the message (or "null") |
| DeliveryService.DeliverWebhookSpec | src/main/java/dev/dammak/paymentservicewebhook/service/DeliveryService.java:190-201 | an open breaker gives the fallback without touching the table; a fallback never changes the table |
| DeliveryService.CallerSeesSettledRecord | src/main/java/dev/dammak/paymentservicewebhook/service/DeliveryService.java:48-201 | the caller never sees an exception. A recorded result is the row just appended, with SUCCESS, RETRY_SCHEDULED or MAX_RETRIES_EXCEEDED. A fallback is FAILED and leaves the table as it was |
| DeliveryService.DeliverWebhookExtends | src/main/java/dev/dammak/paymentservicewebhook/service/DeliveryService.java:48-125 | a call keeps every existing row and adds at most one, for the requested pair |
| DeliveryService.DeliveryService.Attempt | src/main/java/dev/dammak/paymentservicewebhook/service/DeliveryService.java:63-119 | the two saves leave the table as `AttemptSpec` says |
| DeliveryService.DeliveryService.DeliverWebhook | src/main/java/dev/dammak/paymentservicewebhook/service/DeliveryService.java:48-125 | result and table are as `DeliverWebhookSpec` says |
| EventProcessingService.Messages | src/main/java/dev/dammak/paymentservicewebhook/service/EventProcessingService.java:76-95 | one message per target in list order, on topic "webhook-deliveries", carrying the event id, the endpoint id and its timestamp |
| EventProcessingService.ProcessIncoming | src/main/java/dev/dammak/paymentservicewebhook/service/EventProcessingService.java:40-85 | a rejected event stores nothing. It queues nothing and draws no id, unless the commit failed on a value too long for its column. An accepted event is answered with the DTO of its stored row |
| EventProcessingService.DuplicateKeyRejected | src/main/java/dev/dammak/paymentservicewebhook/service/EventProcessingService.java:48-54 | a key already in the table gives DuplicateEventException "Event already processed"; nothing is stored or queued |
| EventProcessingService.SecondDeliveryRejected | src/main/java/dev/dammak/paymentservicewebhook/service/EventProcessingService.java:48-54 | after an accepted event with a key, any further event with the same key is rejected as a duplicate and changes nothing |
| EventProcessingService.NoKeyNoDuplicate | src/main/java/dev/dammak/paymentservicewebhook/service/EventProcessingService.java:48-84 | without a key, an event with a type is never a duplicate: it is accepted exactly when its row fits its columns, and otherwise fails with the value-too-long error |
| EventProcessingService.AcceptedEventStored | src/main/java/dev/dammak/paymentservicewebhook/service/EventProcessingService.java:57-84 | an accepted event is appended under a fresh id with the given provider, type, payload, key and source. It is DELIVERED when no endpoint listens and PROCESSING otherwise, and its row fits its columns. The reply is the DTO of the stored row, with that status, and the table stays valid |
| EventProcessingService.SaveAndFanOut | src/main/java/dev/dammak/paymentservicewebhook/service/EventProcessingService.java:66-84 | the drawn id is used up whatever happens, and one message goes to each target of the event's type. The commit fails exactly when the row does not fit its columns, and then stores nothing. Otherwise one row is added, and the reply is its DTO |
| EventProcessingService.EventProcessingService.SaveAndQueue | src/main/java/dev/dammak/paymentservicewebhook/service/EventProcessingService.java:66-84 | result, event table and topic are as `SaveAndFanOut` says |
| EventProcessingService.IntakeOutcomes | src/main/java/dev/dammak/paymentservicewebhook/service/EventProcessingService.java:40-85 | over a valid table an intake either stores the event under the drawn id and keeps the table valid, or fails at commit on a too-long value after queueing messages for that id, or fails earlier with nothing changed; every failure has a message |
| EventProcessingService.OverlongEventQueuedNotStored | src/main/java/dev/dammak/paymentservicewebhook/service/EventProcessingService.java:66-84 | a new row too long for its columns (provider over 50, type over 100, key or source over 255 characters) passes every check, so a message goes to each subscriber; the insert then fails at commit. Nothing is stored, the error is the value-too-long one, the id stays drawn, and the messages name an id no stored event has |
| EventProcessingService.MessagesCoverTargets | src/main/java/dev/dammak/paymentservicewebhook/service/EventProcessingService.java:76-79 | every message names the event and one of the targets, and every target gets a message |
| EventProcessingService.AcceptedEventFansOut | src/main/java/dev/dammak/paymentservicewebhook/service/EventProcessingService.java:69-82 | exactly one message per active subscribed endpoint, each for the new event, and every such endpoint receives one |
| EventProcessingService.KafkaTopic.Send | src/main/java/dev/dammak/paymentservicewebhook/service/EventProcessingService.java:94 | a send appends one message to the topic |
| EventProcessingService.EventProcessingService.QueueDeliveries | src/main/java/dev/dammak/paymentservicewebhook/service/EventProcessingService.java:76-96 | the loop appends `Messages` to the topic |
| EventProcessingService.EventProcessingService.ProcessIncomingEvent | src/main/java/dev/dammak/paymentservicewebhook/service/EventProcessingService.java:40-85 | result, event table and topic are as `ProcessIncoming` says |
| RetryService.Due | src/main/java/dev/dammak/paymentservicewebhook/service/RetryService.java:36-41 | exactly the RETRY_SCHEDULED attempts whose retry time is strictly before now |
| RetryService.Sweep | src/main/java/dev/dammak/paymentservicewebhook/service/RetryService.java:46-56 | one delivery result per due attempt; the caller of each delivery never sees an exception, so the loop always goes on |
| RetryService.ProcessRetriesSpec | src/main/java/dev/dammak/paymentservicewebhook/service/RetryService.java:32-58 | one delivery per due attempt |
| RetryService.SweepAppends | src/main/java/dev/dammak/paymentservicewebhook/service/RetryService.java:46-56 | a sweep keeps every existing row, adds at most one row per due attempt, each for that attempt's pair, and keeps the table valid |
| RetryService.RetriedAttemptsStayDue | src/main/java/dev/dammak/paymentservicewebhook/service/RetryService.java:46-56 | the retried rows are not modified, so they are still due at any later sweep |
| RetryService.NothingDueNothingChanges | src/main/java/dev/dammak/paymentservicewebhook/service/RetryService.java:43 | when the selection of due attempts is empty (nothing RETRY_SCHEDULED, or every such row due at now or later), a sweep makes no delivery and changes nothing |
| RetryService.RetryService.ProcessRetries | src/main/java/dev/dammak/paymentservicewebhook/service/RetryService.java:32-58 | the loop leaves the delivery table as `ProcessRetriesSpec` says |
| WebhookMapper.SubscriptionsToEvents | src/main/java/dev/dammak/paymentservicewebhook/mapper/WebhookMapper.java:56-63 | null gives null; otherwise the event types of the active subscriptions, in order |
| WebhookMapper.EventsAreActiveTypes | src/main/java/dev/dammak/paymentservicewebhook/mapper/WebhookMapper.java:56-63 | a type is listed exactly when some active subscription has it |
| WebhookMapper.ToEndpointDto | src/main/java/dev/dammak/paymentservicewebhook/mapper/WebhookMapper.java:27-30 | events come from the active subscriptions and version from apiVersion; id, url, secret and status name are copied |
| WebhookMapper.StatusFromDto | src/main/java/dev/dammak/paymentservicewebhook/mapper/WebhookMapper.java:32-36 | a null status keeps the default; a name is parsed; an unknown name raises IllegalArgumentException |
| WebhookMapper.ToEndpointEntity | src/main/java/dev/dammak/paymentservicewebhook/mapper/WebhookMapper.java:32-36 | version goes to apiVersion and the plain fields are copied; there are no subscriptions, and the merchant comes from the caller |
| WebhookMapper.EndpointRoundTrip | src/test/java/dev/dammak/paymentservicewebhook/mapper/WebhookMapperTest.java:27-67 | entity to DTO to entity keeps every copied field (not the id or the subscriptions) |
| WebhookMapper.ToEventDto | src/main/java/dev/dammak/paymentservicewebhook/mapper/WebhookMapper.java:38-41 | deliveryCount is the number of deliveries, or 0 when they are null |
| WebhookMapper.ToDeliveryDto | src/main/java/dev/dammak/paymentservicewebhook/mapper/WebhookMapper.java:46-48 | the event and endpoint ids come from the attempt's relations |
| WebhookMapper.ToEndpointDtoList | src/main/java/dev/dammak/paymentservicewebhook/mapper/WebhookMapper.java:50 | the endpoints mapped one by one, in order |
| WebhookMapper.ToEndpointDtoListMembers | src/main/java/dev/dammak/paymentservicewebhook/mapper/WebhookMapper.java:50 | a DTO is in the list exactly when it maps some endpoint of the input |
| WebhookMapper.UpdateEndpointFromDto | src/main/java/dev/dammak/paymentservicewebhook/mapper/WebhookMapper.java:65-66 | an unknown status name fails. Otherwise a non-null id, url, description, secret, retryEnabled, maxRetries, timeoutSeconds or headers overwrites the entity's value and a null one keeps it; the status is the converted name; merchant, subscriptions and apiVersion are kept |
| WebhookMapper.EmptyPatchIsIdentity | src/main/java/dev/dammak/paymentservicewebhook/mapper/WebhookMapper.java:65-66 | a DTO with only nulls changes nothing |
| WebhookMapper.PatchIdempotent | src/main/java/dev/dammak/paymentservicewebhook/mapper/WebhookMapper.java:65-66 | applying the same patch twice equals applying it once |
| Dtos.RangeViolations | src/main/java/dev/dammak/paymentservicewebhook/dto/WebhookEndpointDTO.java:53-61 | a null value is valid; otherwise it violates exactly when it lies outside [lo, hi] |
| Dtos.Violations | src/main/java/dev/dammak/paymentservicewebhook/dto/WebhookEndpointDTO.java:33-68 | URL required exactly when it is null or blank; scheme exactly when a URL is present but not matching `^https?://.*`; events required exactly when null or empty; no violation exactly when the DTO is valid |
| Dtos.BlankUrlBreaksBoth | src/test/java/dev/dammak/paymentservicewebhook/dto/WebhookEndpointDTOTest.java:39-51 | a blank URL breaks both URL rules |
| Dtos.NullUrlBreaksRequiredOnly | src/main/java/dev/dammak/paymentservicewebhook/dto/WebhookEndpointDTO.java:33-36 | a null URL breaks only the required rule (the pattern accepts null) |
| Dtos.SampleIsValid | src/test/java/dev/dammak/paymentservicewebhook/dto/WebhookEndpointDTOTest.java:113-128 | the sample DTO is valid, also with description, headers, retry settings and timeout null |
| Dtos.BadUrls | src/test/java/dev/dammak/paymentservicewebhook/dto/WebhookEndpointDTOTest.java:39-66 | "" breaks both URL rules; "invalid-url" breaks exactly the scheme rule |
| Dtos.OutOfRangeFields | src/main/java/dev/dammak/paymentservicewebhook/dto/WebhookEndpointDTO.java:53-68 | maxRetries 15, timeout 500 and an empty event list each give exactly their own violation |
| ProviderWebhookController.TypeField | src/main/java/dev/dammak/paymentservicewebhook/controller/ProviderWebhookController.java:131-139 | a type field exists exactly for stripe, paypal and razorpay |
| ProviderWebhookController.StringField | src/main/java/dev/dammak/paymentservicewebhook/controller/ProviderWebhookController.java:134-136 | an absent key or a JSON null gives null, a string gives itself, and any other value fails the `(String)` cast |
| ProviderWebhookController.ProviderNameIgnoresCase | src/main/java/dev/dammak/paymentservicewebhook/controller/ProviderWebhookController.java:133 | the provider name is matched without regard to case |
| ProviderWebhookController.ExtractedTypeOrigin | src/main/java/dev/dammak/paymentservicewebhook/controller/ProviderWebhookController.java:131-139 | "unknown" for other providers; otherwise the payload's own field, and nothing when that field is absent |
| ProviderWebhookController.ToReply | src/main/java/dev/dammak/paymentservicewebhook/controller/ProviderWebhookController.java:92-110 | accepted with the event id exactly when processing succeeded; otherwise rejected with the exception's message, or unanswered when it has none |
| ProviderWebhookController.Receive | src/main/java/dev/dammak/paymentservicewebhook/controller/ProviderWebhookController.java:56-111 | a failed request stores nothing. It queues nothing and draws no id, unless the commit failed on a value too long for its column |
| ProviderWebhookController.EveryRequestAnswered | src/main/java/dev/dammak/paymentservicewebhook/controller/ProviderWebhookController.java:84-110 | over a valid event table every request gets 200 or 400. A 200 names the fresh id of an event that was stored, fits its columns and keeps the table valid. A 400 stores nothing; it has queued nothing, duplicates included, unless its message is the value-too-long one, whose queued messages all name the drawn id |
| ProviderWebhookController.OverlongProviderQueuedButRejected | src/main/java/dev/dammak/paymentservicewebhook/controller/ProviderWebhookController.java:56-111 | a provider name over 50 characters reads as type "unknown"; with a fresh key every endpoint subscribed to "unknown" is sent a message, and the caller then gets 400 with the value-too-long error while nothing is stored |
| ProviderWebhookController.MissingTypeRejected | src/main/java/dev/dammak/paymentservicewebhook/controller/ProviderWebhookController.java:81-110 | a known provider's payload without its type field is rejected with nothing stored |
| ProviderWebhookController.ProviderWebhookController.ReceiveWebhook | src/main/java/dev/dammak/paymentservicewebhook/controller/ProviderWebhookController.java:56-111 | the reply, the event table and the topic are as `Receive` and `ToReply` say |
| WebhookService.EncodeUrlNoPadding | src/main/java/dev/dammak/paymentservicewebhook/service/WebhookService.java:164 | unpadded URL-safe Base64: 4 chars per 3 bytes plus 2 or 3 for a remainder, all from the URL-safe alphabet |
| WebhookService.SecretShape | src/main/java/dev/dammak/paymentservicewebhook/service/WebhookService.java:161-165 | a secret from 32 random bytes is "whsec_" followed by 43 URL-safe characters |
| WebhookService.Deactivated | src/main/java/dev/dammak/paymentservicewebhook/service/WebhookService.java:87 | every subscription is switched off and nothing else changes |
| WebhookService.AddOrReactivateFacts | src/main/java/dev/dammak/paymentservicewebhook/service/WebhookService.java:90-105 | the first subscription of the type is reactivated, or one new active subscription is appended; types stay distinct and other rows keep their state |
| WebhookService.AddAllFacts | src/main/java/dev/dammak/paymentservicewebhook/service/WebhookService.java:90-106 | existing rows keep their type and become active exactly when listed or already active; appended rows are active and listed; types stay distinct |
| WebhookService.AddAllCovers | src/main/java/dev/dammak/paymentservicewebhook/service/WebhookService.java:90-106 | every listed type ends up subscribed, and nothing is appended when all are present |
| WebhookService.ReconcileSemantics | src/main/java/dev/dammak/paymentservicewebhook/service/WebhookService.java:85-107 | afterwards a subscription is active exactly when its type is listed. Existing rows keep their place and type, the types are the old ones plus the listed ones, and no type repeats |
| WebhookService.ReconciledActiveTypes | src/main/java/dev/dammak/paymentservicewebhook/service/WebhookService.java:85-107 | a type has an active subscription exactly when it is listed |
| WebhookService.ReconcileIdempotent | src/main/java/dev/dammak/paymentservicewebhook/service/WebhookService.java:85-107 | reconciling twice with the same list equals reconciling once |
| WebhookService.WebhookService.ReconcileSubscriptions | src/main/java/dev/dammak/paymentservicewebhook/service/WebhookService.java:85-107 | the in-place loops produce `Reconciled` |
| WebhookService.SubscriptionRows | src/main/java/dev/dammak/paymentservicewebhook/service/WebhookService.java:58-67 | one active subscription per listed type, in order |
| WebhookService.Create | src/main/java/dev/dammak/paymentservicewebhook/service/WebhookService.java:45-70 | a failed create stores nothing |
| WebhookService.CreateRejections | src/main/java/dev/dammak/paymentservicewebhook/service/WebhookService.java:45-70 | an unknown merchant gives "Merchant not found". An unknown status name or a null URL fails the save. At commit, a URL over 500 characters or a secret or version over 255 fails the endpoint row; then repeated types that fit give the unique constraint's error, and distinct types one of which exceeds 100 characters the column's. Creation succeeds exactly when none of these holds |
| WebhookService.SubscriptionInsertFailure | src/main/java/dev/dammak/paymentservicewebhook/service/WebhookService.java:57-67 | the first failing subscription insert, in save order: none exactly when every type fits its column and repeats no earlier one; a value-too-long error only for an over-long type, a unique-constraint error only for a repeated one |
| WebhookService.SubscriptionInsertsSucceed | src/main/java/dev/dammak/paymentservicewebhook/service/WebhookService.java:57-67 | the subscription inserts succeed exactly when the types are distinct and all fit; which error comes when only one of the two holds |
| WebhookService.NoEarlierCopyIsDistinct | src/main/java/dev/dammak/paymentservicewebhook/service/WebhookService.java:58-66 | no type equals an earlier one exactly when no type is listed twice |
| WebhookService.CreatedEndpointSubscribes | src/main/java/dev/dammak/paymentservicewebhook/service/WebhookService.java:45-70 | exactly one row is added under a fresh id, for the merchant: the mapped entity with the given secret and the listed types as active subscriptions, fitting its columns. It has an active subscription exactly for the listed types and joins their fan-out when ACTIVE; the returned DTO has the id and no events |
| WebhookService.FindOwned | src/main/java/dev/dammak/paymentservicewebhook/service/WebhookService.java:75-121 | found exactly when the endpoint exists and belongs to the merchant; "Webhook endpoint not found" or "Endpoint does not belong to this merchant" otherwise |
| WebhookService.Update | src/main/java/dev/dammak/paymentservicewebhook/service/WebhookService.java:72-111 | a failed update stores nothing |
| WebhookService.ForeignIdRejected | src/main/java/dev/dammak/paymentservicewebhook/service/WebhookService.java:82-110 | a DTO carrying another id changes the managed entity's identifier, so the update fails at commit and nothing is stored |
| WebhookService.OverlongUpdateRejected | src/main/java/dev/dammak/paymentservicewebhook/service/WebhookService.java:82-110 | an update that would store a URL over 500 characters, or subscribe to a type over 100, fails at commit with the value-too-long error and changes nothing |
| WebhookService.UpdateChangesOnlyOwnedRow | src/main/java/dev/dammak/paymentservicewebhook/service/WebhookService.java:72-111 | only the merchant's own endpoint row can change, and the table stays valid |
| WebhookService.UpdatedEndpointSubscriptions | src/main/java/dev/dammak/paymentservicewebhook/service/WebhookService.java:82-110 | the saved row is the patched entity. With null events its subscriptions are unchanged; otherwise a type is active exactly when listed. The reply is its DTO |
| WebhookService.Delete | src/main/java/dev/dammak/paymentservicewebhook/service/WebhookService.java:113-125 | a failed delete stores nothing |
| WebhookService.DeleteChangesOnlyOwnedRow | src/main/java/dev/dammak/paymentservicewebhook/service/WebhookService.java:113-125 | only the merchant's own endpoint row can change, and that row changes only its status, to INACTIVE. The table stays valid |
| WebhookService.DeletedEndpointReceivesNothing | src/main/java/dev/dammak/paymentservicewebhook/service/WebhookService.java:123-124 | a deleted endpoint is kept, as the old row with only its status set to INACTIVE (a soft delete), and leaves every fan-out |
| WebhookService.SaveReplacesOneRow | src/main/java/dev/dammak/paymentservicewebhook/service/WebhookService.java:109-124 | saving an entity changes only its own row and keeps the table valid |
| WebhookService.OwnershipIsShared | src/main/java/dev/dammak/paymentservicewebhook/service/WebhookService.java:75-133 | update, delete and get fail with the ownership check's error; delete succeeds whenever the check passes |
| WebhookService.GetEndpoint | src/main/java/dev/dammak/paymentservicewebhook/service/WebhookService.java:127-141 | the owned endpoint's DTO, or the ownership check's error |
| WebhookService.ListEndpoints | src/main/java/dev/dammak/paymentservicewebhook/service/WebhookService.java:143-155 | exactly the DTOs of the merchant's endpoints, filtered by status when a status is given |
| WebhookService.GetActiveEndpointsForEvent | src/main/java/dev/dammak/paymentservicewebhook/service/WebhookService.java:157-159 | exactly the ACTIVE endpoints with an active subscription to the type |
| WebhookService.WebhookService.CreateEndpoint | src/main/java/dev/dammak/paymentservicewebhook/service/WebhookService.java:45-70 | result and endpoint table are as `Create` says, with the secret drawn from the random bytes |
| WebhookService.WebhookService.UpdateEndpoint | src/main/java/dev/dammak/paymentservicewebhook/service/WebhookService.java:72-111 | result and endpoint table are as `Update` says |
| WebhookService.WebhookService.DeleteEndpoint | src/main/java/dev/dammak/paymentservicewebhook/service/WebhookService.java:113-125 | result and endpoint table are as `Delete` says |

## Left out

- The HTTP send (`RestTemplate.exchange`, its timeouts, and the error handler that throws on 4xx/5xx) is a transport parameter. It returns either a response or an exception with its message.
- HMAC-SHA256, Base64 on the signature, and `payload.toString()` are the uninterpreted `Crypto` functions. Only the empty-key failure of `SecretKeySpec` is modelled.
- `Math.pow` on doubles is replaced by the exact power of two. The `(long)` cast saturates and the `* 10` wraps; both are written out in `RetryDelayAsWritten`, which the delivery transition uses.
- `LocalDateTime` is an integer count of milliseconds. Its range is modelled only where `plusSeconds` checks it (the epoch day of `LocalDate`); the `Math.addExact` overflow inside `plusDays` cannot arise from a delay in `long` seconds.
- UUIDs are natural numbers. Their text (`IdText`) is the decimal rendering, which is injective like `UUID.toString()` but not its 8-4-4-4-12 hex form.
- The Resilience4j circuit breaker and `@Retry` live in the library. Whether the breaker lets a call through is the `breakerPermits` parameter. Library-side retries of the call are not modelled, and neither is the breaker's own failure counting.
- `@Async`, the thread pool, `@Scheduled` timing and `@Transactional` concurrency are not modelled. A transaction is modelled only as all-or-nothing on failure. The race between concurrent attempts of one pair in `getNextAttemptNumber` is out of scope for a sequential model.
- The Kafka broker and topic provisioning are not modelled. The topic is an append-only sequence of messages.
- `SecureRandom` is a byte-sequence parameter. The clocks (`System.currentTimeMillis`, `LocalDateTime.now`) are parameters too.
- Paging (`Page`/`Pageable`), JOIN FETCH, indexes, cascades and the other JPA mechanics are not modelled. Queries return every match.
- EndpointRepository.FindActiveEndpointsByEventType: the JPQL query has no ORDER BY, so the database may return the endpoints in any order. The model fixes table order, so the order of the queued messages is a modelling choice.
- `BaseEntity` is not part of this model. The ids are taken to be generated at `persist`, with the INSERT deferred to the commit, and the schema is taken to follow the `@Column` annotations.
- A column length is a count of characters, as the database counts them. When several values are too long, which one the database reports is not modelled: the message is one fixed constant.
- WebhookMapper.UpdateEndpointFromDto: a property named `version` inherited from `BaseEntity`, which is not part of this model, is assumed not to be a mapping target. If the base entity had one, MapStruct would copy a non-null `dto.version` onto it by name, in the update and in `toEndpointEntity`. A numeric type would throw NumberFormatException for "v1"; otherwise it would overwrite the optimistic-lock version.
- `updateEventStatus` and `processStaleEvents` are empty stubs: the model changes nothing for them.
- `getAverageLatency`, `calculateStatistics` (constant zeros) and the statistics DTO's doubles are floating-point reporting, so they are left out.
- The audit timestamps of the base entity are left out, except the creation time that the queries filter on.
- `HttpHeaders` treats header names without regard to case; the model's header map is case-sensitive.
- Custom header values are JSON values: a string is sent as itself, and a null throws. The `toString()` of any other value is the uninterpreted `show` function.
- Strings are sequences of characters. Provider names are lower-cased over ASCII only, and UTF-8 encoding is not modelled.
- The texts of persistence exceptions (constraint violations, a null URL, an altered identifier, a value too long for its column) are fixed constants. They are not Hibernate's exact messages.
- EventProcessingService.NoKeyNoDuplicate: a request without a key is not promised acceptance: a row too long for its columns fails at commit.
- ProviderWebhookController.Receive: a failed request is not promised to have queued nothing; a commit failure on a too-long value leaves its messages queued, as the code does.
- ProviderWebhookController.EveryRequestAnswered: a 400 is promised to have queued nothing only when its message is not the value-too-long one.
- DeliveryService.NextAttemptNumber: the `int` wrap-around of `max + 1` at `Integer.MAX_VALUE` is not modelled.
- The MapStruct implementation is generated code and is not part of this model. The mappings assume same-named properties are copied, and a status name is converted with `valueOf`.
- A null `isActive` in a subscription (an unboxing error in the mapper's filter) cannot occur: `isActive` is a `bool`.
- A null event type inside a DTO's event list is not modelled: list entries are strings.
- `WebhookEndpointController`, the security, OpenAPI and Kafka configuration, and `WebhookEventDTO`'s constraints that nothing enforces are outside the delivery engine.

## Findings

The delivery transition keeps the code as written. `AsWrittenAgreesBelowSixty` shows that it schedules with the intended delay below attempt 60, and the properties of the intended delay are proved about `RetryDelay`.

| source | as written | input that shows it | evidently intended | confidence | as-written member | corrected member |
|---|---|---|---|---|---|---|
| src/main/java/dev/dammak/paymentservicewebhook/service/DeliveryService.java:163-167 | `Math.min((long) Math.pow(2, attemptNumber) * 10, 3600)`: the `long` product wraps around from attempt 60 | an endpoint stored with maxRetries 100 whose attempts keep failing. Attempt 60 computes -6917529027641081856 s and attempt 62 Long.MIN_VALUE s; `plusSeconds` then throws a DateTimeException, the attempt rolls back and the caller gets the fallback record. From attempt 63 the delay is -10 s, so the retry is scheduled ten seconds in the past. Only endpoints stored with maxRetries above 60 reach this, which the DTO's `@Max(10)` keeps validated requests from setting | `min(10·2^n, 3600)`, which is 3600 for every attempt from 9 on | not executed | DeliveryService.RetryOverflowSettles | DeliveryService.RetryDelay |
