# orderworker, modelled in Dafny

A model of the order worker's processing core. For each inbound order message
the worker takes a Redis lock `lock:<orderId>`. It then checks that the order
is not already stored, fetches the customer (which must be `ACTIVE`) and every
product from two HTTP services, builds the order and saves it. If any of that
fails, it records the failure in a Redis ledger under `failed-order:<orderId>`.
A final failure is written with count 0. A retryable failure bumps a retry
count, with a ceiling of 3. Once the lock is taken it is always released.

The model is purely functional. Redis is a `map<string, string>` and MongoDB a
map from order id to order. Everything the environment decides is an
explicit `Oracle`:

- whether Redis answers the lock request;
- the services' successive responses to each request;
- the order in which the concurrent product fetches complete;
- which ledger or store command fails;
- whether the lock release gets through.

`processOrder` becomes a function from message, world and oracle to an
outcome, the new world and the list of calls it made.

Modules, one per part of the program:

- `Results` — `Option` and `Result`.
- `Decimal` — Java `int`: `Integer.toString`, `Integer.parseInt`, 32-bit wrap-around.
- `KeyValue` — the Redis commands GET, SET, DEL and SET NX over the map.
- `Errors` — the exceptions, their message texts, and `shouldNotRetry`.
- `Lock` — `LockService`: acquisition, release, expiry, and histories of one key.
- `Ledger` — `FailedMessageService`: the `count|payload` codec and its four operations.
- `Enrichment` — `EnrichmentClient`: URLs, status classification, the retry operator.
- `Collect` — `Flux.flatMap(...).collectList()`: collection in completion order; the first failure wins.
- `Pipeline` — `OrderProcessorService`: `enrichOrder`, `buildProduct`/`buildOrder`, `handleProcessingError` and `processOrder`.
- `PipelineProperties` — properties of one run and of a sequence of runs over a shared world.

## Behaviour worth knowing

- An error from the lock store is not a skip. An error from `tryLock` reaches
  the caller of `processOrder` (`PipelineProperties.LockStoreErrorPropagates`).
- A failed dead-letter write propagates. In the non-retryable branch, a failed
  ledger write reaches the caller; only the retryable branch swallows ledger
  errors (`PipelineProperties.FailureClassification`).
- The ceiling does not freeze the record. Before the ceiling is compared,
  `incrementRetry` has already rewritten the record as `(n+1)|<old payload>`;
  at the ceiling only the overwrite with the new message is skipped, so the
  count keeps going past 3 (`Pipeline.RepeatedRetryableFailure`,
  `Pipeline.RetriesCountUp`).
- Exhausted retries are wrapped. Both retry specs set `.transientErrors(true)`,
  and Reactor's `Retry.backoff` then replaces the last error with
  `Retries exhausted: m/m in a row (m total)`. That text is the ledger payload
  of a fetch that ran out of retries (`Enrichment.ExhaustedAfterEveryRetry`).
- Products are saved in completion order. The saved order matches the request
  only as a multiset (`PipelineProperties.SavedOrderMatchesRequest`). When
  several product fetches fail, any one of them can be the one reported
  (`PipelineProperties.ProductFailureSurfaces`).
- The inactive-customer message uses the id the customer service returned,
  not the id in the message.
- The backoff multiplier is configurable but never read.

## Model

| member | source | states |
|---|---|---|
| Decimal.Wrap | orderworker/src/main/java/com/cristhianfdx/orderworker/service/FailedMessageService.java:34 | Java `int` addition: in-range sums are unchanged and `IntMax + 1` becomes `IntMin` |
| Decimal.NatToString | orderworker/src/main/java/com/cristhianfdx/orderworker/service/FailedMessageService.java:22 | the decimal rendering of a count is a non-empty run of digits with no leading zero |
| Decimal.IntToString | orderworker/src/main/java/com/cristhianfdx/orderworker/service/FailedMessageService.java:22 | `Integer.toString`: it starts with `-` exactly for negative values and is otherwise all digits |
| Decimal.ParseInt | orderworker/src/main/java/com/cristhianfdx/orderworker/service/FailedMessageService.java:34 | `Integer.parseInt`: a run of digits, alone or after `+`, is its value when that is at most `IntMax`; after `-` it is the negated value when that is at least `IntMin`; anything else, the empty string included, is refused |
| Decimal.ParseIntToString | orderworker/src/main/java/com/cristhianfdx/orderworker/service/FailedMessageService.java:34-36 | `parseInt` reads back what `toString` wrote, for every `int`, negative ones included |
| Decimal.IntToStringExcludes | orderworker/src/main/java/com/cristhianfdx/orderworker/service/FailedMessageService.java:22 | a rendered count never contains the delimiter, so the first `|` of a record ends the count |
| KeyValue.Get | orderworker/src/main/java/com/cristhianfdx/orderworker/service/FailedMessageService.java:28 | GET yields a value exactly when the key is present, and that value |
| KeyValue.Set | orderworker/src/main/java/com/cristhianfdx/orderworker/service/FailedMessageService.java:23 | SET makes the key read back the new value and touches no other key |
| KeyValue.Delete | orderworker/src/main/java/com/cristhianfdx/orderworker/service/FailedMessageService.java:55 | DEL removes the key, touches no other key, and is a no-op on an absent key |
| KeyValue.SetIfAbsent | orderworker/src/main/java/com/cristhianfdx/orderworker/service/LockService.java:17-18 | SET NX writes exactly when the key is absent and otherwise leaves the store as it was |
| Lock.TryLock | orderworker/src/main/java/com/cristhianfdx/orderworker/service/LockService.java:16-19 | `tryLock` returns true iff the key was absent; then it holds `"locked"`; otherwise nothing changes; no other key moves |
| Lock.ReleaseLock | orderworker/src/main/java/com/cristhianfdx/orderworker/service/LockService.java:21-23 | `releaseLock` removes the key whoever set it and leaves every other key alone |
| Lock.Expire | orderworker/src/main/java/com/cristhianfdx/orderworker/service/LockService.java:18 | the time-to-live firing removes the key and nothing else |
| Lock.MutualExclusion | orderworker/src/main/java/com/cristhianfdx/orderworker/service/LockService.java:16-19 | of two `tryLock` calls on one key with nothing in between, at most one returns true |
| Lock.ReleaseEnablesAcquire | orderworker/src/main/java/com/cristhianfdx/orderworker/service/LockService.java:16-23 | after a release or an expiry the next `tryLock` succeeds |
| Lock.HeldKeyBlocks | orderworker/src/main/java/com/cristhianfdx/orderworker/service/LockService.java:16-19 | while the key is held and only acquisitions happen, each of them fails |
| Lock.AtMostOneHolder | orderworker/src/main/java/com/cristhianfdx/orderworker/service/LockService.java:16-23 | in any history of one key, two successful acquisitions are separated by a release or an expiry |
| Ledger.KeyFor | orderworker/src/main/java/com/cristhianfdx/orderworker/service/FailedMessageService.java:58-60 | the ledger key is `failed-order:` followed by the order id, and nothing else |
| Ledger.KeyForInjective | orderworker/src/main/java/com/cristhianfdx/orderworker/service/FailedMessageService.java:58-60 | distinct orders have distinct ledger keys |
| Ledger.FirstIndexOf | orderworker/src/main/java/com/cristhianfdx/orderworker/service/FailedMessageService.java:30 | the position of the first delimiter, absent exactly when there is none |
| Ledger.Encode | orderworker/src/main/java/com/cristhianfdx/orderworker/service/FailedMessageService.java:22 | the record layout shared by `storeFailedMessage` and `incrementRetry`: the decimal count, `|`, then the payload |
| Ledger.EncodeLayout | orderworker/src/main/java/com/cristhianfdx/orderworker/service/FailedMessageService.java:36 | in a record, the rendered count comes first and holds no `|`, the first `|` follows it, and everything after is the payload unchanged |
| Ledger.Decode | orderworker/src/main/java/com/cristhianfdx/orderworker/service/FailedMessageService.java:30-34 | split at the first `|`: malformed iff the value has no `|`; otherwise a success with the parsed head and everything after the first `|` when the head parses, and the `NumberFormat` failure for the head when it does not |
| Ledger.DecodeEncode | orderworker/src/main/java/com/cristhianfdx/orderworker/service/FailedMessageService.java:30-35 | decoding `count|payload` gives back the count and the payload, whatever `|` the payload holds |
| Ledger.StoreFailedMessage | orderworker/src/main/java/com/cristhianfdx/orderworker/service/FailedMessageService.java:20-24 | `storeFailedMessage` adds only the order's key, leaves every other key as it was, and its value decodes to the given count and payload |
| Ledger.StoreFormat | orderworker/src/main/java/com/cristhianfdx/orderworker/service/FailedMessageService.java:20-24 | the stored value is literally the decimal count, `|`, then the payload, under `failed-order:<id>` |
| Ledger.StoreThenRead | orderworker/src/main/java/com/cristhianfdx/orderworker/service/FailedMessageService.java:42-51 | store then `getRetryAndMessage` returns the stored count and payload |
| Ledger.GetRetryAndMessage | orderworker/src/main/java/com/cristhianfdx/orderworker/service/FailedMessageService.java:42-52 | empty iff there is no record; the malformed failure iff the record has no `|`; a record that decodes is returned as decoded, and a decoding failure is returned unchanged |
| Ledger.IncrementRetry | orderworker/src/main/java/com/cristhianfdx/orderworker/service/FailedMessageService.java:26-40 | empty iff there is no record; the malformed failure iff it has no `|`; a record that decodes always gets bumped: the count becomes `Wrap(old + 1)`, the payload stays, and no other key moves; a decoding failure is returned unchanged with nothing written |
| Ledger.RemoveFailedMessage | orderworker/src/main/java/com/cristhianfdx/orderworker/service/FailedMessageService.java:54-56 | `removeFailedMessage` leaves no record behind, removes only the order's key, and is a no-op when there is none |
| Ledger.EncodeZero | orderworker/src/main/java/com/cristhianfdx/orderworker/service/OrderProcessorService.java:102-106 | a dead letter's stored form is `0|` followed by the message |
| Ledger.MalformedReported | orderworker/src/main/java/com/cristhianfdx/orderworker/service/FailedMessageService.java:26-52 | a value without `|` makes both readers fail with `Malformed Redis value for key: failed-order:<id>` |
| Ledger.IncrementEncoded | orderworker/src/main/java/com/cristhianfdx/orderworker/service/FailedMessageService.java:26-38 | incrementing `n|p` writes `(n+1)|p` and emits `n+1` |
| Ledger.IncrementOver | orderworker/src/main/java/com/cristhianfdx/orderworker/service/FailedMessageService.java:34-38 | incrementing over `m|p` writes `(m+1)|p` under the key, whatever the store held there before |
| Ledger.IncrementTimesOnce | orderworker/src/main/java/com/cristhianfdx/orderworker/service/FailedMessageService.java:34-38 | one increment of `n|p` through the iterated form emits `n+1` and leaves `(n+1)|p` |
| Ledger.IncrementTimesEncoded | orderworker/src/main/java/com/cristhianfdx/orderworker/service/FailedMessageService.java:34-38 | `k` increments of `n|p` leave `(n+k)|p`: the count goes up by one each time and the payload never moves |
| Ledger.IncrementWrapsAtIntMax | orderworker/src/main/java/com/cristhianfdx/orderworker/service/FailedMessageService.java:34 | incrementing a record at the top of the `int` range stores the most negative `int` |
| Errors.Message | orderworker/src/main/java/com/cristhianfdx/orderworker/exceptions/CustomerNotFoundException.java:5 | the text each exception carries, which the ledger stores as its payload: `Customer not found with ID: <id>` here, and alike for the product, inactive-customer and existing-order exceptions, and `Retries exhausted: r/m in a row (r total)` for a fetch that gave up; the partner lemmas `Enrichment.CustomerNotFoundMessage` and `PipelineProperties.ExistingOrderDeadLettered` fix the texts a run stores |
| Errors.NotRetryable | orderworker/src/main/java/com/cristhianfdx/orderworker/service/OrderProcessorService.java:131-136 | `shouldNotRetry`: customer or product not found, inactive customer and existing order are final; every other failure is retried; its partner is `Enrichment.FilterAgreesWithHandler` |
| Enrichment.Retryable | orderworker/src/main/java/com/cristhianfdx/orderworker/provider/EnrichmentClient.java:53 | the retry filter: a fetch retries every failure except its own resource's not-found; its partner is `Enrichment.FilterAgreesWithHandler` |
| Enrichment.FilterAgreesWithHandler | orderworker/src/main/java/com/cristhianfdx/orderworker/provider/EnrichmentClient.java:81 | for every failure one request can produce, the fetch retries it exactly when `shouldNotRetry` says it is not final |
| Enrichment.GetCustomerById | orderworker/src/main/java/com/cristhianfdx/orderworker/provider/EnrichmentClient.java:31-57 | one to `maxAttempts + 1` requests; a success is the body of the last response; a first-response 404 is `CustomerNotFound` for the requested id after one request, and that failure arises only from a 404 |
| Enrichment.GetProductById | orderworker/src/main/java/com/cristhianfdx/orderworker/provider/EnrichmentClient.java:59-85 | the same for products: one to `maxAttempts + 1` requests, a success is the last body, and a 404 on the first request is `ProductNotFound` for the requested id after one request and the only source of that failure |
| Enrichment.Url | orderworker/src/main/java/com/cristhianfdx/orderworker/provider/EnrichmentClient.java:32 | the request URL is the service's base URL, a slash, then the id |
| Enrichment.UrlInjective | orderworker/src/main/java/com/cristhianfdx/orderworker/provider/EnrichmentClient.java:60 | distinct ids are requested at distinct URLs |
| Enrichment.Classify | orderworker/src/main/java/com/cristhianfdx/orderworker/provider/EnrichmentClient.java:37-45 | a body is a success carrying it; a 404 is the resource's not-found failure, the only failure the filter stops; any other error status is `ExternalApi` with that status |
| Enrichment.FetchFrom | orderworker/src/main/java/com/cristhianfdx/orderworker/provider/EnrichmentClient.java:46-54 | the retry loop: every request but the last failed retryably; the last one's result is returned unless it failed retryably, in which case `maxAttempts` retries were spent and it ends in `RetriesExhausted` |
| Enrichment.FetchBounded | orderworker/src/main/java/com/cristhianfdx/orderworker/provider/EnrichmentClient.java:46-54 | a fetch makes at least one request and at most `maxAttempts` retries |
| Enrichment.SuccessIsBody | orderworker/src/main/java/com/cristhianfdx/orderworker/provider/EnrichmentClient.java:45 | a successful fetch returns the body of the response that ended it, unchanged |
| Enrichment.NotFoundRequestedOnce | orderworker/src/main/java/com/cristhianfdx/orderworker/provider/EnrichmentClient.java:53 | a 404 is requested exactly once and surfaces as the typed not-found failure |
| Enrichment.CustomerNotFoundMessage | orderworker/src/main/java/com/cristhianfdx/orderworker/provider/EnrichmentClient.java:39-40 | a customer 404 yields `Customer not found with ID: <id>` |
| Enrichment.ProductNotFoundMessage | orderworker/src/main/java/com/cristhianfdx/orderworker/provider/EnrichmentClient.java:67-68 | a product 404 yields `Product not found with ID: <id>` |
| Enrichment.ExhaustedAfterEveryRetry | orderworker/src/main/java/com/cristhianfdx/orderworker/provider/EnrichmentClient.java:46-54 | when every allowed request fails retryably, exactly `maxAttempts + 1` requests are made and the fetch gives up with the last failure |
| Collect.Pick | orderworker/src/main/java/com/cristhianfdx/orderworker/service/OrderProcessorService.java:74-77 | the values in the order the completion list names them |
| Collect.PickIndices | orderworker/src/main/java/com/cristhianfdx/orderworker/service/OrderProcessorService.java:74-77 | completing in request order collects the values in request order |
| Collect.PermutedCollection | orderworker/src/main/java/com/cristhianfdx/orderworker/service/OrderProcessorService.java:74-77 | collecting in any completion order yields a permutation of the values in request order |
| Collect.PickRespectsMultiset | orderworker/src/main/java/com/cristhianfdx/orderworker/service/OrderProcessorService.java:74-77 | two completion orders that are permutations of each other collect permutations of each other |
| Collect.Join | orderworker/src/main/java/com/cristhianfdx/orderworker/service/OrderProcessorService.java:74-77 | `collectList` after `flatMap`: success iff every fetch succeeded, holding the values in completion order; otherwise the failure of the first fetch to fail in completion order |
| Collect.JoinSucceedsIffAll | orderworker/src/main/java/com/cristhianfdx/orderworker/service/OrderProcessorService.java:74-77 | the collection succeeds exactly when every fetch does, whatever the completion order |
| Collect.JoinSuccessPermutes | orderworker/src/main/java/com/cristhianfdx/orderworker/service/OrderProcessorService.java:74-77 | a successful collection is a permutation of the fetched values |
| Collect.AnyFailureCanWin | orderworker/src/main/java/com/cristhianfdx/orderworker/service/OrderProcessorService.java:74-77 | any failing fetch is the failure reported under some completion order |
| Pipeline.LockAndLedgerKeysDiffer | orderworker/src/main/java/com/cristhianfdx/orderworker/service/OrderProcessorService.java:39 | lock keys and ledger keys never collide |
| Pipeline.BuildProduct | orderworker/src/main/java/com/cristhianfdx/orderworker/service/OrderProcessorService.java:82-88 | a product keeps the fetched id, name and price; its partner `PipelineProperties.IdsInOrder` carries the ids through a whole collection |
| Pipeline.BuildOrder | orderworker/src/main/java/com/cristhianfdx/orderworker/service/OrderProcessorService.java:90-96 | an order carries the message's order and customer ids and the given products; its partner is `PipelineProperties.SavedOrderMatchesRequest` |
| Pipeline.BuildProducts | orderworker/src/main/java/com/cristhianfdx/orderworker/service/OrderProcessorService.java:76-88 | `buildProduct` applied to each fetched product, one for one |
| Pipeline.ProductResults | orderworker/src/main/java/com/cristhianfdx/orderworker/service/OrderProcessorService.java:74-75 | the `i`-th requested id is fetched with its own script, in request order |
| Pipeline.ProductFetchCalls | orderworker/src/main/java/com/cristhianfdx/orderworker/service/OrderProcessorService.java:74-75 | one product request per requested id, at the product URL |
| Pipeline.EnrichOrder | orderworker/src/main/java/com/cristhianfdx/orderworker/service/OrderProcessorService.java:64-80 | `enrichOrder` requests the customer first; a built order carries the message's ids and one product per requested id |
| Pipeline.Attempt | orderworker/src/main/java/com/cristhianfdx/orderworker/service/OrderProcessorService.java:48-58 | a save happens only for an id that was absent and adds exactly that order; a failure leaves the orders alone |
| Pipeline.HandleProcessingError | orderworker/src/main/java/com/cristhianfdx/orderworker/service/OrderProcessorService.java:98-129 | only the order's ledger key changes; the handling is a dead letter iff the failure is final; an error escapes iff a final failure's write fails, and then nothing was written |
| Pipeline.DeadLetterWritten | orderworker/src/main/java/com/cristhianfdx/orderworker/service/OrderProcessorService.java:101-107 | a final failure with a working ledger is one SET of `0|<message>` |
| Pipeline.FirstRetryableFailure | orderworker/src/main/java/com/cristhianfdx/orderworker/service/OrderProcessorService.java:109-121 | a retryable failure with no record stores `1|<message>`, after one GET and one SET |
| Pipeline.RepeatedRetryableFailure | orderworker/src/main/java/com/cristhianfdx/orderworker/service/OrderProcessorService.java:109-121 | over `n|p`: below the ceiling the record becomes `(n+1)|<message>`; at or above it `(n+1)|p` stays |
| Pipeline.Repeated | orderworker/src/main/java/com/cristhianfdx/orderworker/service/OrderProcessorService.java:98-129 | repeated handling changes only the order's ledger key |
| Pipeline.RetryStep | orderworker/src/main/java/com/cristhianfdx/orderworker/service/OrderProcessorService.java:109-121 | one more retryable failure over `(k-1)|<message>` makes it `k|<message>` |
| Pipeline.RetriesCountUp | orderworker/src/main/java/com/cristhianfdx/orderworker/service/OrderProcessorService.java:109-121 | from no record, the `k`-th retryable failure leaves `k|<message>`: counted while `k < 3`, at the ceiling from then on, and counting continues past 3 |
| Pipeline.RecordCount | orderworker/src/main/java/com/cristhianfdx/orderworker/service/OrderProcessorService.java:111-126 | at the ceiling nothing is written; below it with a working ledger the record reads back as the count and this failure's message; no error escapes |
| Pipeline.Locked | orderworker/src/main/java/com/cristhianfdx/orderworker/service/OrderProcessorService.java:48-60 | under the lock the run never ends skipped and its last call is the release |
| Pipeline.ProcessOrder | orderworker/src/main/java/com/cristhianfdx/orderworker/service/OrderProcessorService.java:38-62 | `processOrder` first asks for the lock `lock:<orderId>` |
| PipelineProperties.SkippedIffLockHeld | orderworker/src/main/java/com/cristhianfdx/orderworker/service/OrderProcessorService.java:41-46 | the run is skipped iff the lock is already held; then it makes no other call and changes nothing |
| PipelineProperties.LockStoreErrorPropagates | orderworker/src/main/java/com/cristhianfdx/orderworker/service/OrderProcessorService.java:41 | a Redis error on the lock request reaches the caller and nothing else happens |
| PipelineProperties.LockReleasedOnceTaken | orderworker/src/main/java/com/cristhianfdx/orderworker/service/OrderProcessorService.java:60 | once taken the lock is released on every outcome; unless the release fails the key is gone; a lock not taken is never released |
| PipelineProperties.OrdersWrittenOnlyOnce | orderworker/src/main/java/com/cristhianfdx/orderworker/service/OrderProcessorService.java:48-58 | the orders change only by saving this message's order, and only when its id was absent |
| PipelineProperties.KeySpaceFrame | orderworker/src/main/java/com/cristhianfdx/orderworker/service/OrderProcessorService.java:38-62 | only the lock key and this order's ledger key can change in the key space |
| PipelineProperties.TakenRun | orderworker/src/main/java/com/cristhianfdx/orderworker/service/OrderProcessorService.java:41-60 | with the lock free, the run is the lock request followed by the locked part over the held key |
| PipelineProperties.LockedAfterFailure | orderworker/src/main/java/com/cristhianfdx/orderworker/service/OrderProcessorService.java:59-60 | a handled failure ends `Handled`, with the handler's store minus the lock and the calls attempt, handler, release |
| PipelineProperties.EnrichedFromJoin | orderworker/src/main/java/com/cristhianfdx/orderworker/service/OrderProcessorService.java:72-78 | a successful enrichment is the joined product fetches built into products |
| PipelineProperties.BuildInOrder | orderworker/src/main/java/com/cristhianfdx/orderworker/service/OrderProcessorService.java:76-77 | building products commutes with reordering them |
| PipelineProperties.IdsInOrder | orderworker/src/main/java/com/cristhianfdx/orderworker/service/OrderProcessorService.java:76-88 | when each reply carries its requested id, the built products' ids are the requested ids reordered alike |
| PipelineProperties.CollectedProducts | orderworker/src/main/java/com/cristhianfdx/orderworker/service/OrderProcessorService.java:72-78 | products collected in a completion order are those built in request order, as a multiset, and so are their ids |
| PipelineProperties.EnrichedProducts | orderworker/src/main/java/com/cristhianfdx/orderworker/service/OrderProcessorService.java:72-78 | a successful enrichment fetched every product and holds them all as a multiset; with matching replies its product ids are the requested ids as a multiset |
| PipelineProperties.ResultsIgnoreCompletion | orderworker/src/main/java/com/cristhianfdx/orderworker/service/OrderProcessorService.java:74-75 | the fetches' results do not depend on the order they complete in |
| PipelineProperties.ProductFailureFromFetch | orderworker/src/main/java/com/cristhianfdx/orderworker/service/OrderProcessorService.java:72-78 | for an active customer, enrichment fails only with the failure of some product fetch |
| PipelineProperties.ProductFailureSurfaces | orderworker/src/main/java/com/cristhianfdx/orderworker/service/OrderProcessorService.java:72-78 | for an active customer, any failing product fetch is the reported failure when it completes first |
| PipelineProperties.SavedIsEnriched | orderworker/src/main/java/com/cristhianfdx/orderworker/service/OrderProcessorService.java:53-58 | a saving run took the lock, saved the enriched order and left the ledger key as it was |
| PipelineProperties.SavedOrderMatchesRequest | orderworker/src/main/java/com/cristhianfdx/orderworker/service/OrderProcessorService.java:53-96 | a saved order carries the message's order and customer ids and every fetched product; with matching replies its product ids are the requested ids as a multiset; the ledger record is left as it was |
| PipelineProperties.FailureClassification | orderworker/src/main/java/com/cristhianfdx/orderworker/service/OrderProcessorService.java:98-136 | a handled failure is dead-lettered iff it is final, and then the record is `0|<message>`; only a lock error or the dead-letter write reaches the caller |
| PipelineProperties.HandledRun | orderworker/src/main/java/com/cristhianfdx/orderworker/service/OrderProcessorService.java:38-62 | a failed attempt handled without an escaping error: the whole run's outcome, store and calls |
| PipelineProperties.ReleaseAfterRecord | orderworker/src/main/java/com/cristhianfdx/orderworker/service/OrderProcessorService.java:60 | releasing the lock after the ledger write leaves the original store plus the record |
| PipelineProperties.DeadLetteredRun | orderworker/src/main/java/com/cristhianfdx/orderworker/service/OrderProcessorService.java:101-107 | a final failure with a working ledger adds only `0|<message>` and ends with that write and the release |
| PipelineProperties.ExistingOrderDeadLettered | orderworker/src/main/java/com/cristhianfdx/orderworker/service/OrderProcessorService.java:48-52 | an existing order: no fetch and no save, the record is `0|Order already exist with ID: <id>`, the lock is released |
| PipelineProperties.InactiveCustomerDeadLettered | orderworker/src/main/java/com/cristhianfdx/orderworker/service/OrderProcessorService.java:65-69 | a customer not `ACTIVE`: no product fetch and no save, the record is `0|Inactive customer with ID: <id>`, the lock is released |
| PipelineProperties.MissingCustomerDeadLettered | orderworker/src/main/java/com/cristhianfdx/orderworker/service/OrderProcessorService.java:65 | a customer 404: one customer request, nothing saved, the record is `0|Customer not found with ID: <id>` |
| PipelineProperties.SavedStep | orderworker/src/main/java/com/cristhianfdx/orderworker/service/OrderProcessorService.java:48-58 | a run only adds orders; a saving run adds its own id, which was absent before |
| PipelineProperties.Deliver | orderworker/src/main/java/com/cristhianfdx/orderworker/service/OrderProcessorService.java:38-62 | deliveries processed in sequence: orders only accumulate, and each save adds its message's absent id |
| PipelineProperties.OrdersAccumulate | orderworker/src/main/java/com/cristhianfdx/orderworker/service/OrderProcessorService.java:48-58 | orders present at one point of a trace are present at every later point |
| PipelineProperties.SavedAtMostOnce | orderworker/src/main/java/com/cristhianfdx/orderworker/service/OrderProcessorService.java:48-58 | across any sequence of deliveries, no order id is saved twice |


## Left out

- The Kafka consumer (`OrderConsumer`): JSON decoding and the fire-and-forget subscription are I/O plumbing. `PipelineProperties.Deliver` stands in for it as a sequence of deliveries.
- The WebClient transport: a request either gets a status, a body or no response (`Unreachable`). An empty 2xx body is not modelled.
- Back-off delays, jitter and the unused multiplier: they affect timing only, and timing is not modelled.
- The lock's time-to-live as a duration: its expiry is the environment step `Lock.Expire`.
- Concurrency between workers:
  - the lost-update race in the ledger's read-modify-write;
  - a stale holder's release deleting another holder's lock (the release has no owner check, and `Lock.ReleaseLock` deletes unconditionally as the code does, but interleavings are not explored).
- Interleaving of the concurrent product fetches: they are reduced to a completion order chosen by the environment. `flatMap`'s default limit of 256 requests in flight is not modelled either: every product request is issued. Above 256 products, the source queues the rest, and a failure can cancel queued requests before they are sent.
- `Integer.parseInt` on non-ASCII digits: only `0`-`9` with an optional sign is accepted.
- The HTTP reason phrase in the `ExternalApi` message (`Status: 500 INTERNAL_SERVER_ERROR`): the model renders the numeric status only.
- `Transport` and `StoreError` messages: they carry an opaque detail text chosen by the environment.
- The log lines, the `doOnSuccess` logging of the saved order, configuration, dependency injection, and the whole `go-api` module.
- `Product.price` is a `double`, carried through as an opaque `real` with no arithmetic.
- `Order.java`, `ProductDTO.java`, `CustomerStatusEnum.java`, `ExternalApiException.java` and `GeneralException.java` are not part of this model; their fields and messages are inferred from their uses.
- The order returned by `save` is taken to be the order passed to it.
- Errors.Message: the `RetriesExhausted` text is generated by Reactor, not by the worker. It follows that library's wording under `.transientErrors(true)` (EnrichmentClient.java lines 52 and 80), where the retries in a row equal the total for a single request; the library's source is not part of this model.
- Ledger.IncrementEncoded: requires `n < IntMax`; the wrap-around at the top of the `int` range is stated separately by `Ledger.IncrementWrapsAtIntMax`.
- Ledger.IncrementTimesEncoded: requires `n + k <= IntMax`, for the same reason.
- Ledger.IncrementOver: requires `m < IntMax`, for the same reason.
- Ledger.IncrementTimesOnce: requires `n < IntMax`, for the same reason.
- Pipeline.RepeatedRetryableFailure: requires `n < IntMax`, for the same reason.
- Pipeline.RetriesCountUp: requires `k <= IntMax`, for the same reason.
- Pipeline.ProcessOrder: requires the completion order to be a permutation of the product indices; any other completion order is not a possible execution.
- Pipeline.EnrichOrder: the same precondition on the completion order.
