/**
 * `OrderProcessorService.processOrder` with the reactive plumbing flattened:
 * a pure function from a message, the world (the Redis key space and the
 * MongoDB order collection) and an oracle of everything the environment
 * decides (service responses, store failures, completion order of the
 * product fetches) to an outcome, the new world and the calls it made.
 */
module Pipeline {
  import opened Results
  import opened Decimal
  import opened KeyValue
  import opened Errors
  import Lock
  import Ledger
  import Collect
  import opened Enrichment

  /** `MAX_RETRIES`: the ledger count at which a retryable failure is no longer recorded. */
  const MaxRetries: int := 3

  const LockPrefix: string := "lock:"

  datatype OrderMessage = OrderMessage(orderId: string, customerId: string, products: seq<string>)

  datatype Product = Product(productId: string, name: string, price: Price)

  datatype Order = Order(orderId: string, customerId: string, products: seq<Product>)

  /** The order collection, keyed by order id. */
  type Orders = map<string, Order>

  datatype World = World(kv: Store, orders: Orders)

  /** The ledger command (0 for the first one issued while handling a failure) that fails, and how. */
  datatype LedgerFault = LedgerFault(command: nat, detail: string)

  /**
   * Everything outside the worker's control for one message: whether Redis
   * answers the lock request, whether the order lookup and save succeed, the
   * services' scripted responses (`products[i]` for the `i`-th requested id),
   * the order in which the product fetches complete, which ledger command
   * fails, and whether the lock release gets through.
   */
  datatype Oracle = Oracle(
    lockFailure: Option<string>,
    findFailure: Option<string>,
    customer: seq<Response<CustomerDto>>,
    products: seq<seq<Response<ProductDto>>>,
    completion: seq<nat>,
    saveFailure: Option<string>,
    ledgerFault: Option<LedgerFault>,
    releaseFails: bool)

  /** The calls the worker makes, in order; a product fetch is recorded once however often it is retried. */
  datatype Call =
    | TryLockCall(key: string)
    | FindById(orderId: string)
    | FetchCall(url: string)
    | SaveCall(order: Order)
    | LedgerGet(key: string)
    | LedgerSet(key: string, value: string)
    | ReleaseCall(key: string)

  /** What `handleProcessingError` did with the ledger. */
  datatype Handling =
    | DeadLettered
    | Counted(count: Int32)
    | CeilingReached(count: Int32)
    | LedgerSwallowed(cause: Failure)

  /**
   * How `processOrder`'s `Mono` ends: completing after a skip, a save or a
   * handled failure, or with an error that reaches the caller.
   */
  datatype Outcome =
    | Skipped
    | Saved(order: Order)
    | Handled(error: Failure, handling: Handling)
    | Propagated(error: Failure)

  datatype Run = Run(outcome: Outcome, world: World, calls: seq<Call>)

  function LockKey(orderId: string): string {
    LockPrefix + orderId
  }

  /** Lock keys and ledger keys never collide, so neither component can disturb the other. */
  lemma LockAndLedgerKeysDiffer(a: string, b: string)
    ensures LockKey(a) != Ledger.KeyFor(b)
  {
    assert LockKey(a)[0] == 'l' && Ledger.KeyFor(b)[0] == 'f';
  }

  /** `buildProduct`. */
  function BuildProduct(dto: ProductDto): Product {
    Product(dto.id, dto.name, dto.price)
  }

  function BuildProducts(dtos: seq<ProductDto>): (ps: seq<Product>)
    ensures |ps| == |dtos|
    ensures forall i :: 0 <= i < |dtos| ==> ps[i] == BuildProduct(dtos[i])
  {
    if |dtos| == 0 then [] else [BuildProduct(dtos[0])] + BuildProducts(dtos[1..])
  }

  function ProductIds(ps: seq<Product>): (ids: seq<string>)
    ensures |ids| == |ps|
    ensures forall i :: 0 <= i < |ps| ==> ids[i] == ps[i].productId
  {
    if |ps| == 0 then [] else [ps[0].productId] + ProductIds(ps[1..])
  }

  /** `buildOrder`. */
  function BuildOrder(message: OrderMessage, products: seq<Product>): Order {
    Order(message.orderId, message.customerId, products)
  }

  /** The oracle's completion order is a permutation of the message's product indices. */
  ghost predicate WellFormed(message: OrderMessage, oracle: Oracle) {
    Collect.IsPermutation(oracle.completion, |message.products|)
  }

  function ScriptFor(oracle: Oracle, i: nat): seq<Response<ProductDto>> {
    if i < |oracle.products| then oracle.products[i] else []
  }

  /** The outcome of each product fetch from the `start`-th requested id on, in request order. */
  function ResultsFrom(cfg: Config, ids: seq<string>, oracle: Oracle, start: nat)
    : (rs: seq<Result<ProductDto, Failure>>)
    requires start <= |ids|
    ensures |rs| == |ids| - start
    ensures forall i :: start <= i < |ids| ==>
              rs[i - start] == GetProductById(cfg, ids[i], ScriptFor(oracle, i)).result
    decreases |ids| - start
  {
    if start == |ids| then []
    else [GetProductById(cfg, ids[start], ScriptFor(oracle, start)).result] + ResultsFrom(cfg, ids, oracle, start + 1)
  }

  /** The outcome of each product fetch, in request order. */
  function ProductResults(cfg: Config, ids: seq<string>, oracle: Oracle): (rs: seq<Result<ProductDto, Failure>>)
    ensures |rs| == |ids|
    ensures forall i :: 0 <= i < |ids| ==> rs[i] == GetProductById(cfg, ids[i], ScriptFor(oracle, i)).result
  {
    ResultsFrom(cfg, ids, oracle, 0)
  }

  function ProductFetchCalls(cfg: Config, ids: seq<string>): (calls: seq<Call>)
    ensures |calls| == |ids|
    ensures forall i :: 0 <= i < |ids| ==> calls[i] == FetchCall(Url(cfg, ProductService, ids[i]))
  {
    if |ids| == 0 then [] else [FetchCall(Url(cfg, ProductService, ids[0]))] + ProductFetchCalls(cfg, ids[1..])
  }

  datatype Enriched = Enriched(result: Result<Order, Failure>, calls: seq<Call>)

  /**
   * `enrichOrder`: fetch the customer, insist that it is `ACTIVE`, fetch every
   * product concurrently and assemble the order from whatever completed, in
   * completion order.
   */
  function EnrichOrder(cfg: Config, message: OrderMessage, oracle: Oracle): (e: Enriched)
    requires WellFormed(message, oracle)
    ensures |e.calls| > 0 && e.calls[0] == FetchCall(Url(cfg, CustomerService, message.customerId))
    ensures e.result.Success? ==>
              && e.result.value.orderId == message.orderId
              && e.result.value.customerId == message.customerId
              && |e.result.value.products| == |message.products|
  {
    var customerCall := FetchCall(Url(cfg, CustomerService, message.customerId));
    match GetCustomerById(cfg, message.customerId, oracle.customer).result
    case Failure(f) => Enriched(Failure(f), [customerCall])
    case Success(customer) =>
      if customer.status != Active then
        Enriched(Failure(InactiveCustomer(customer.id)), [customerCall])
      else
        var calls := [customerCall] + ProductFetchCalls(cfg, message.products);
        match Collect.Join(ProductResults(cfg, message.products, oracle), oracle.completion)
        case Failure(f) => Enriched(Failure(f), calls)
        case Success(dtos) => Enriched(Success(BuildOrder(message, BuildProducts(dtos))), calls)
  }

  /** The part of `processOrder` that runs under the lock, up to `onErrorResume`. */
  datatype Attempted = Attempted(result: Result<Order, Failure>, orders: Orders, calls: seq<Call>)

  /**
   * Look the order up (an existing one is `OrderAlreadyExists`), otherwise
   * enrich it and save it.
   */
  function Attempt(cfg: Config, message: OrderMessage, orders: Orders, oracle: Oracle): (a: Attempted)
    requires WellFormed(message, oracle)
    ensures a.result.Success? ==> a.orders == orders[message.orderId := a.result.value]
    ensures a.result.Failure? ==> a.orders == orders
    ensures a.result.Success? ==> message.orderId !in orders
  {
    var find := FindById(message.orderId);
    if oracle.findFailure.Some? then
      Attempted(Failure(StoreError(oracle.findFailure.value)), orders, [find])
    else if message.orderId in orders then
      Attempted(Failure(OrderAlreadyExists(message.orderId)), orders, [find])
    else
      var enriched := EnrichOrder(cfg, message, oracle);
      match enriched.result
      case Failure(f) => Attempted(Failure(f), orders, [find] + enriched.calls)
      case Success(order) =>
        var calls := [find] + enriched.calls + [SaveCall(order)];
        match oracle.saveFailure
        case Some(detail) => Attempted(Failure(StoreError(detail)), orders, calls)
        case None => Attempted(Success(order), orders[order.orderId := order], calls)
  }

  /** What `handleProcessingError` leaves: the ledger handling, an error that escapes, the store, the calls. */
  datatype Recovery = Recovery(handling: Handling, escaped: Option<Failure>, kv: Store, calls: seq<Call>)

  /** Whether ledger command number `command` fails, and with what. */
  function FaultAt(fault: Option<LedgerFault>, command: nat): Option<Failure> {
    if fault.Some? && fault.value.command == command then Some(StoreError(fault.value.detail)) else None
  }

  /** The record currently held for `orderId`, when it is readable. */
  function LedgerEntry(kv: Store, orderId: string): Option<Ledger.Entry> {
    match Ledger.GetRetryAndMessage(kv, orderId)
    case Success(Some(entry)) => Some(entry)
    case _ => None
  }

  /**
   * `handleProcessingError`. A final failure is recorded as a dead letter with
   * count 0, and a failed write propagates. Any other failure bumps the count
   * (1 when there is no record); below the ceiling the record is rewritten with
   * the new count and this failure's message, at or above it the bumped record
   * keeps its old payload. In this branch every ledger failure is swallowed.
   */
  function HandleProcessingError(orderId: string, f: Failure, kv: Store, fault: Option<LedgerFault>)
    : (r: Recovery)
    ensures AgreeExcept(kv, r.kv, Ledger.KeyFor(orderId))
    ensures r.handling == DeadLettered <==> NotRetryable(f)
    ensures r.escaped.Some? <==> NotRetryable(f) && FaultAt(fault, 0).Some?
    ensures r.escaped.Some? ==> r.kv == kv
  {
    var key := Ledger.KeyFor(orderId);
    if NotRetryable(f) then
      var write := LedgerSet(key, Ledger.Encode(0, Message(f)));
      match FaultAt(fault, 0)
      case Some(err) => Recovery(DeadLettered, Some(err), kv, [write])
      case None => Recovery(DeadLettered, None, Ledger.StoreFailedMessage(kv, orderId, Message(f), 0), [write])
    else
      match FaultAt(fault, 0)
      case Some(err) => Recovery(LedgerSwallowed(err), None, kv, [LedgerGet(key)])
      case None =>
        match Ledger.IncrementRetry(kv, orderId)
        case Failure(err) => Recovery(LedgerSwallowed(err), None, kv, [LedgerGet(key)])
        case Success(None) => RecordCount(orderId, f, kv, fault, 1, [LedgerGet(key)], 1)
        case Success(Some(bumped)) =>
          var calls := [LedgerGet(key), LedgerSet(key, Ledger.Encode(bumped.count, LedgerEntry(kv, orderId).value.payload))];
          match FaultAt(fault, 1)
          case Some(err) => Recovery(LedgerSwallowed(err), None, kv, calls)
          case None => RecordCount(orderId, f, bumped.kv, fault, bumped.count, calls, 2)
  }

  /** A final failure, with a working ledger: one SET of `"0|" + message`. */
  lemma DeadLetterWritten(orderId: string, f: Failure, kv: Store)
    requires NotRetryable(f)
    ensures var key := Ledger.KeyFor(orderId);
            HandleProcessingError(orderId, f, kv, None)
              == Recovery(DeadLettered, None, kv[key := "0|" + Message(f)], [LedgerSet(key, "0|" + Message(f))])
  {
    Ledger.EncodeZero(Message(f));
  }

  /** A first retryable failure (no record yet), with a working ledger: the record becomes `"1|" + message`. */
  lemma FirstRetryableFailure(orderId: string, f: Failure, kv: Store)
    requires !NotRetryable(f) && Ledger.KeyFor(orderId) !in kv
    ensures var key := Ledger.KeyFor(orderId);
            var record := Ledger.Encode(1, Message(f));
            HandleProcessingError(orderId, f, kv, None)
              == Recovery(Counted(1), None, kv[key := record], [LedgerGet(key), LedgerSet(key, record)])
  {
    var key := Ledger.KeyFor(orderId);
    var record := Ledger.Encode(1, Message(f));
    assert Ledger.IncrementRetry(kv, orderId) == Success(None);
    assert Ledger.StoreFailedMessage(kv, orderId, Message(f), 1) == kv[key := record];
    assert RecordCount(orderId, f, kv, None, 1, [LedgerGet(key)], 1)
             == Recovery(Counted(1), None, kv[key := record], [LedgerGet(key), LedgerSet(key, record)]);
  }

  /**
   * A retryable failure over the record `"n|p"`, with a working ledger: the
   * count becomes `n+1`; below the ceiling the payload becomes this failure's
   * message, at or above it the payload `p` stays.
   */
  lemma RepeatedRetryableFailure(orderId: string, f: Failure, kv: Store, n: Int32, p: string)
    requires !NotRetryable(f)
    requires Ledger.KeyFor(orderId) in kv && kv[Ledger.KeyFor(orderId)] == Ledger.Encode(n, p)
    requires n < IntMax
    ensures var key := Ledger.KeyFor(orderId);
            var r := HandleProcessingError(orderId, f, kv, None);
            && r.escaped.None?
            && (n + 1 < MaxRetries ==>
                  r.handling == Counted(n + 1) && r.kv == kv[key := Ledger.Encode(n + 1, Message(f))])
            && (n + 1 >= MaxRetries ==>
                  r.handling == CeilingReached(n + 1) && r.kv == kv[key := Ledger.Encode(n + 1, p)])
  {
    var key := Ledger.KeyFor(orderId);
    Ledger.IncrementEncoded(kv, orderId, n, p);
    var bumped := kv[key := Ledger.Encode(n + 1, p)];
    SetTwice(kv, key, Ledger.Encode(n + 1, p), Ledger.Encode(n + 1, Message(f)));
  }

  /** The same retryable failure handled `k` times in a row, with a working ledger: the last handling. */
  function Repeated(orderId: string, f: Failure, kv: Store, k: nat): (r: Recovery)
    requires k >= 1
    ensures AgreeExcept(kv, r.kv, Ledger.KeyFor(orderId))
  {
    if k == 1 then HandleProcessingError(orderId, f, kv, None)
    else HandleProcessingError(orderId, f, Repeated(orderId, f, kv, k - 1).kv, None)
  }

  /** One more retryable failure over the record `"(k-1)|message"` makes it `"k|message"`. */
  lemma RetryStep(orderId: string, f: Failure, kv: Store, k: nat)
    requires !NotRetryable(f)
    requires 2 <= k <= IntMax
    requires Repeated(orderId, f, kv, k - 1).kv == kv[Ledger.KeyFor(orderId) := Ledger.Encode(k - 1, Message(f))]
    ensures var r := Repeated(orderId, f, kv, k);
            && r.kv == kv[Ledger.KeyFor(orderId) := Ledger.Encode(k, Message(f))]
            && r.handling == (if k < MaxRetries then Counted(k) else CeilingReached(k))
  {
    var key := Ledger.KeyFor(orderId);
    var before := kv[key := Ledger.Encode(k - 1, Message(f))];
    RepeatedRetryableFailure(orderId, f, before, k - 1, Message(f));
    SetTwice(kv, key, Ledger.Encode(k - 1, Message(f)), Ledger.Encode(k, Message(f)));
  }

  /**
   * Starting with no record, the `k`-th retryable failure leaves `"k|message"`
   * and is counted below the ceiling and reaches the ceiling from then on.
   */
  lemma {:induction false} RetriesCountUp(orderId: string, f: Failure, kv: Store, k: nat)
    requires !NotRetryable(f) && Ledger.KeyFor(orderId) !in kv
    requires 1 <= k <= IntMax
    ensures var r := Repeated(orderId, f, kv, k);
            && r.kv == kv[Ledger.KeyFor(orderId) := Ledger.Encode(k, Message(f))]
            && r.handling == (if k < MaxRetries then Counted(k) else CeilingReached(k))
  {
    if k == 1 {
      FirstRetryableFailure(orderId, f, kv);
    } else {
      RetriesCountUp(orderId, f, kv, k - 1);
      RetryStep(orderId, f, kv, k);
    }
  }

  /**
   * The `flatMap` after `incrementRetry(...).defaultIfEmpty(1)`: give up at the
   * ceiling, otherwise store the count with this failure's message
   * (ledger command number `next`).
   */
  function RecordCount(orderId: string, f: Failure, kv: Store, fault: Option<LedgerFault>, count: Int32,
                       calls: seq<Call>, next: nat): (r: Recovery)
    ensures r.escaped.None? && r.handling != DeadLettered
    ensures count >= MaxRetries ==> r == Recovery(CeilingReached(count), None, kv, calls)
    ensures count < MaxRetries && FaultAt(fault, next).None? ==>
              r.handling == Counted(count)
              && LedgerEntry(r.kv, orderId) == Some(Ledger.Entry(count, Message(f)))
    ensures AgreeExcept(kv, r.kv, Ledger.KeyFor(orderId))
    ensures r.handling.LedgerSwallowed? ==> r.kv == kv
  {
    if count >= MaxRetries then Recovery(CeilingReached(count), None, kv, calls)
    else
      var key := Ledger.KeyFor(orderId);
      var calls' := calls + [LedgerSet(key, Ledger.Encode(count, Message(f)))];
      match FaultAt(fault, next)
      case Some(err) => Recovery(LedgerSwallowed(err), None, kv, calls')
      case None => Recovery(Counted(count), None, Ledger.StoreFailedMessage(kv, orderId, Message(f), count), calls')
  }

  /**
   * Everything `processOrder` does once it holds the lock: the attempt, the
   * handling of its failure, and the release fired from `doFinally`, whose
   * own failure is ignored.
   */
  function Locked(cfg: Config, message: OrderMessage, world: World, oracle: Oracle): (r: Run)
    requires WellFormed(message, oracle)
    ensures r.outcome != Skipped
    ensures |r.calls| > 0 && r.calls[|r.calls| - 1] == ReleaseCall(LockKey(message.orderId))
  {
    var lockKey := LockKey(message.orderId);
    var attempt := Attempt(cfg, message, world.orders, oracle);
    match attempt.result
    case Success(order) =>
      Run(Saved(order), World(AfterRelease(world.kv, lockKey, oracle), attempt.orders),
          attempt.calls + [ReleaseCall(lockKey)])
    case Failure(f) =>
      var h := HandleProcessingError(message.orderId, f, world.kv, oracle.ledgerFault);
      var outcome := if h.escaped.Some? then Propagated(h.escaped.value) else Handled(f, h.handling);
      Run(outcome, World(AfterRelease(h.kv, lockKey, oracle), attempt.orders),
          attempt.calls + h.calls + [ReleaseCall(lockKey)])
  }

  /** The store once the fire-and-forget release has run, or failed to. */
  function AfterRelease(kv: Store, lockKey: string, oracle: Oracle): Store {
    if oracle.releaseFails then kv else Lock.ReleaseLock(kv, lockKey)
  }

  /**
   * `processOrder`: take the lock `lock:<orderId>`. A Redis error here reaches
   * the caller; a lock already held completes at once.
   */
  function ProcessOrder(cfg: Config, message: OrderMessage, world: World, oracle: Oracle): (r: Run)
    requires WellFormed(message, oracle)
    ensures |r.calls| > 0 && r.calls[0] == TryLockCall(LockKey(message.orderId))
  {
    var lockKey := LockKey(message.orderId);
    match oracle.lockFailure
    case Some(detail) => Run(Propagated(StoreError(detail)), world, [TryLockCall(lockKey)])
    case None =>
      var taken := Lock.TryLock(world.kv, lockKey);
      if !taken.wrote then Run(Skipped, world, [TryLockCall(lockKey)])
      else
        var r := Locked(cfg, message, World(taken.kv, world.orders), oracle);
        Run(r.outcome, r.world, [TryLockCall(lockKey)] + r.calls)
  }
}
