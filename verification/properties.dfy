/**
 * Properties of one run of the pipeline and of a sequence of runs over a
 * shared world.
 */
module PipelineProperties {
  import opened Results
  import opened Decimal
  import opened KeyValue
  import opened Errors
  import Lock
  import Ledger
  import Collect
  import opened Enrichment
  import opened Pipeline

  /** The lock is taken when Redis answers and nobody holds the key. */
  predicate LockFree(message: OrderMessage, world: World, oracle: Oracle) {
    oracle.lockFailure.None? && LockKey(message.orderId) !in world.kv
  }

  /**
   * A held lock means the run completes at once: no lookup, no fetch, no
   * ledger write, no release, nothing changed.
   */
  lemma SkippedIffLockHeld(cfg: Config, message: OrderMessage, world: World, oracle: Oracle)
    requires WellFormed(message, oracle)
    ensures var r := ProcessOrder(cfg, message, world, oracle);
            && (r.outcome == Skipped <==> oracle.lockFailure.None? && LockKey(message.orderId) in world.kv)
            && (r.outcome == Skipped ==> r.world == world && r.calls == [TryLockCall(LockKey(message.orderId))])
  {
  }

  /** A Redis error on the lock request reaches the caller, and nothing else happens. */
  lemma LockStoreErrorPropagates(cfg: Config, message: OrderMessage, world: World, oracle: Oracle)
    requires WellFormed(message, oracle)
    requires oracle.lockFailure.Some?
    ensures ProcessOrder(cfg, message, world, oracle)
              == Run(Propagated(StoreError(oracle.lockFailure.value)), world, [TryLockCall(LockKey(message.orderId))])
  {
  }

  /**
   * Once the lock is taken it is released whatever happens next: the last call
   * is the release, and unless that call fails the key is gone afterwards.
   * A lock that was not taken is never released.
   */
  lemma LockReleasedOnceTaken(cfg: Config, message: OrderMessage, world: World, oracle: Oracle)
    requires WellFormed(message, oracle)
    ensures var r := ProcessOrder(cfg, message, world, oracle);
            var key := LockKey(message.orderId);
            && (LockFree(message, world, oracle) ==>
                  && r.outcome != Skipped
                  && r.calls[|r.calls| - 1] == ReleaseCall(key)
                  && (!oracle.releaseFails ==> key !in r.world.kv)
                  && (oracle.releaseFails ==> key in r.world.kv && r.world.kv[key] == Lock.Sentinel))
            && (!LockFree(message, world, oracle) ==> ReleaseCall(key) !in r.calls)
  {
  }

  /**
   * The order collection changes only by the save of this message's order,
   * and only when no order with its id existed.
   */
  lemma OrdersWrittenOnlyOnce(cfg: Config, message: OrderMessage, world: World, oracle: Oracle)
    requires WellFormed(message, oracle)
    ensures var r := ProcessOrder(cfg, message, world, oracle);
            && (r.outcome.Saved? ==>
                  message.orderId !in world.orders
                  && r.world.orders == world.orders[message.orderId := r.outcome.order])
            && (!r.outcome.Saved? ==> r.world.orders == world.orders)
  {
  }

  /** Only the lock key and this order's ledger key can change in the key space. */
  lemma KeySpaceFrame(cfg: Config, message: OrderMessage, world: World, oracle: Oracle, k: string)
    requires WellFormed(message, oracle)
    requires k != LockKey(message.orderId) && k != Ledger.KeyFor(message.orderId)
    ensures var r := ProcessOrder(cfg, message, world, oracle);
            (k in r.world.kv <==> k in world.kv) && (k in world.kv ==> r.world.kv[k] == world.kv[k])
  {
  }

  /** With the lock free, `processOrder` is the TRY-LOCK call followed by the locked part over the held key. */
  lemma TakenRun(cfg: Config, message: OrderMessage, world: World, oracle: Oracle)
    requires WellFormed(message, oracle) && LockFree(message, world, oracle)
    ensures var held := World(world.kv[LockKey(message.orderId) := Lock.Sentinel], world.orders);
            var r := Locked(cfg, message, held, oracle);
            ProcessOrder(cfg, message, world, oracle)
              == Run(r.outcome, r.world, [TryLockCall(LockKey(message.orderId))] + r.calls)
  {
  }

  /**
   * An attempt that fails with `f` and is handled without an escaping error
   * ends `Handled(f, ...)`, with the handler's store minus the lock and the
   * attempt's calls, the handler's calls and the release.
   */
  lemma LockedAfterFailure(cfg: Config, message: OrderMessage, world: World, oracle: Oracle, f: Failure)
    requires WellFormed(message, oracle) && !oracle.releaseFails
    requires Attempt(cfg, message, world.orders, oracle).result == Failure(f)
    requires HandleProcessingError(message.orderId, f, world.kv, oracle.ledgerFault).escaped.None?
    ensures var a := Attempt(cfg, message, world.orders, oracle);
            var h := HandleProcessingError(message.orderId, f, world.kv, oracle.ledgerFault);
            Locked(cfg, message, world, oracle)
              == Run(Handled(f, h.handling), World(Lock.ReleaseLock(h.kv, LockKey(message.orderId)), world.orders),
                     a.calls + h.calls + [ReleaseCall(LockKey(message.orderId))])
  {
  }

  /** A successful enrichment is the joined product fetches, built into products. */
  lemma EnrichedFromJoin(cfg: Config, message: OrderMessage, oracle: Oracle)
    requires WellFormed(message, oracle)
    requires EnrichOrder(cfg, message, oracle).result.Success?
    ensures var joined := Collect.Join(ProductResults(cfg, message.products, oracle), oracle.completion);
            joined.Success? && EnrichOrder(cfg, message, oracle).result.value.products == BuildProducts(joined.value)
  {
  }

  /** Building products commutes with reordering them. */
  lemma BuildInOrder(vs: seq<ProductDto>, order: seq<nat>)
    requires Collect.InBounds(order, |vs|)
    ensures BuildProducts(Collect.Pick(vs, order)) == Collect.Pick(BuildProducts(vs), order)
  {
  }

  /** When each reply carries its requested id, the built products' ids are the requested ids, reordered alike. */
  lemma IdsInOrder(vs: seq<ProductDto>, ids: seq<string>, order: seq<nat>)
    requires |vs| == |ids| && Collect.InBounds(order, |vs|)
    requires forall i :: 0 <= i < |vs| ==> vs[i].id == ids[i]
    ensures ProductIds(BuildProducts(Collect.Pick(vs, order))) == Collect.Pick(ids, order)
  {
  }

  /**
   * Products built from fetches collected in a completion order are the
   * products built in request order, as a multiset; when each reply carries
   * the id asked for, their ids are the requested ids, as a multiset.
   */
  lemma CollectedProducts(results: seq<Result<ProductDto, Failure>>, order: seq<nat>, ids: seq<string>)
    requires Collect.IsPermutation(order, |results|)
    requires forall i :: 0 <= i < |results| ==> results[i].Success?
    ensures var collected := BuildProducts(Collect.Pick(Collect.Values(results), order));
            && multiset(collected) == multiset(BuildProducts(Collect.Values(results)))
            && (|ids| == |results| && (forall i :: 0 <= i < |results| ==> results[i].value.id == ids[i]) ==>
                  multiset(ProductIds(collected)) == multiset(ids))
  {
    var vs := Collect.Values(results);
    BuildInOrder(vs, order);
    Collect.PermutedCollection(BuildProducts(vs), order);
    if |ids| == |results| && forall i :: 0 <= i < |results| ==> results[i].value.id == ids[i] {
      IdsInOrder(vs, ids, order);
      Collect.PermutedCollection(ids, order);
    }
  }

  /**
   * A successful enrichment fetched every product successfully and holds them
   * all, as a multiset, in completion order; when each reply carries the id
   * that was asked for, the order's product ids are the requested ids as a
   * multiset.
   */
  lemma EnrichedProducts(cfg: Config, message: OrderMessage, oracle: Oracle)
    requires WellFormed(message, oracle)
    requires EnrichOrder(cfg, message, oracle).result.Success?
    ensures var order := EnrichOrder(cfg, message, oracle).result.value;
            var results := ProductResults(cfg, message.products, oracle);
            && (forall i :: 0 <= i < |results| ==> results[i].Success?)
            && multiset(order.products) == multiset(BuildProducts(Collect.Values(results)))
            && ((forall i :: 0 <= i < |results| ==> results[i].value.id == message.products[i]) ==>
                  multiset(ProductIds(order.products)) == multiset(message.products))
  {
    var results := ProductResults(cfg, message.products, oracle);
    EnrichedFromJoin(cfg, message, oracle);
    Collect.JoinSucceedsIffAll(results, oracle.completion);
    Collect.JoinIsPick(results, oracle.completion);
    CollectedProducts(results, oracle.completion, message.products);
  }

  /** The fetches do not depend on the order in which they complete. */
  lemma ResultsIgnoreCompletion(cfg: Config, ids: seq<string>, oracle: Oracle, order: seq<nat>)
    ensures ProductResults(cfg, ids, oracle.(completion := order)) == ProductResults(cfg, ids, oracle)
  {
    var other := oracle.(completion := order);
    assert forall i :: 0 <= i < |ids| ==> ScriptFor(other, i) == ScriptFor(oracle, i);
  }

  /** An active customer's enrichment fails only with the failure of some product fetch. */
  lemma ProductFailureFromFetch(cfg: Config, message: OrderMessage, oracle: Oracle, customer: CustomerDto)
    requires WellFormed(message, oracle)
    requires GetCustomerById(cfg, message.customerId, oracle.customer).result == Success(customer)
    requires customer.status == Active
    requires EnrichOrder(cfg, message, oracle).result.Failure?
    ensures var results := ProductResults(cfg, message.products, oracle);
            exists i :: 0 <= i < |results| && results[i] == Failure(EnrichOrder(cfg, message, oracle).result.error)
  {
    var results := ProductResults(cfg, message.products, oracle);
    var joined := Collect.Join(results, oracle.completion);
    assert joined.Failure? && joined.error == EnrichOrder(cfg, message, oracle).result.error;
    var j :| 0 <= j < |oracle.completion| && results[oracle.completion[j]] == Failure(joined.error);
  }

  /**
   * For an active customer, any failing product fetch is the failure the
   * enrichment reports when that fetch completes first.
   */
  lemma ProductFailureSurfaces(cfg: Config, message: OrderMessage, oracle: Oracle, customer: CustomerDto, i: nat)
    requires WellFormed(message, oracle)
    requires GetCustomerById(cfg, message.customerId, oracle.customer).result == Success(customer)
    requires customer.status == Active
    requires i < |message.products| && ProductResults(cfg, message.products, oracle)[i].Failure?
    ensures var first := oracle.(completion := Collect.Front(i, |message.products|));
            && WellFormed(message, first)
            && EnrichOrder(cfg, message, first).result == Failure(ProductResults(cfg, message.products, oracle)[i].error)
  {
    var results := ProductResults(cfg, message.products, oracle);
    var first := oracle.(completion := Collect.Front(i, |results|));
    Collect.AnyFailureCanWin(results, i);
    ResultsIgnoreCompletion(cfg, message.products, oracle, first.completion);
  }

  /**
   * A run that saves took the lock and saved the enriched order; the ledger
   * key is left as it was.
   */
  lemma SavedIsEnriched(cfg: Config, message: OrderMessage, world: World, oracle: Oracle)
    requires WellFormed(message, oracle)
    requires ProcessOrder(cfg, message, world, oracle).outcome.Saved?
    ensures var r := ProcessOrder(cfg, message, world, oracle);
            && LockFree(message, world, oracle)
            && EnrichOrder(cfg, message, oracle).result == Success(r.outcome.order)
            && (Ledger.KeyFor(message.orderId) in r.world.kv <==> Ledger.KeyFor(message.orderId) in world.kv)
            && (Ledger.KeyFor(message.orderId) in world.kv ==>
                  r.world.kv[Ledger.KeyFor(message.orderId)] == world.kv[Ledger.KeyFor(message.orderId)])
  {
    assert LockFree(message, world, oracle);
    TakenRun(cfg, message, world, oracle);
    LockAndLedgerKeysDiffer(message.orderId, message.orderId);
  }

  /**
   * A successful run saves the message's order and customer ids with every
   * fetched product, and leaves the ledger alone.
   */
  lemma SavedOrderMatchesRequest(cfg: Config, message: OrderMessage, world: World, oracle: Oracle)
    requires WellFormed(message, oracle)
    requires ProcessOrder(cfg, message, world, oracle).outcome.Saved?
    ensures var r := ProcessOrder(cfg, message, world, oracle);
            var results := ProductResults(cfg, message.products, oracle);
            && LockFree(message, world, oracle)
            && r.outcome.order.orderId == message.orderId
            && r.outcome.order.customerId == message.customerId
            && (forall i :: 0 <= i < |results| ==> results[i].Success?)
            && multiset(r.outcome.order.products) == multiset(BuildProducts(Collect.Values(results)))
            && ((forall i :: 0 <= i < |results| ==> results[i].value.id == message.products[i]) ==>
                  multiset(ProductIds(r.outcome.order.products)) == multiset(message.products))
            && (Ledger.KeyFor(message.orderId) in r.world.kv <==> Ledger.KeyFor(message.orderId) in world.kv)
            && (Ledger.KeyFor(message.orderId) in world.kv ==>
                  r.world.kv[Ledger.KeyFor(message.orderId)] == world.kv[Ledger.KeyFor(message.orderId)])
  {
    SavedIsEnriched(cfg, message, world, oracle);
    EnrichedProducts(cfg, message, oracle);
  }

  /**
   * Final failures leave a dead letter: when the ledger write goes through,
   * the record is `"0|" + message`; when it fails, the failure reaches the
   * caller. Retryable failures never reach the caller: apart from a lock
   * store error, only a final failure's dead-letter write can escape.
   */
  lemma FailureClassification(cfg: Config, message: OrderMessage, world: World, oracle: Oracle)
    requires WellFormed(message, oracle)
    ensures var r := ProcessOrder(cfg, message, world, oracle);
            var key := Ledger.KeyFor(message.orderId);
            && (r.outcome.Handled? ==> (r.outcome.handling == DeadLettered <==> NotRetryable(r.outcome.error)))
            && (r.outcome.Handled? && NotRetryable(r.outcome.error) ==>
                  key in r.world.kv && r.world.kv[key] == "0|" + Message(r.outcome.error))
            && (r.outcome.Propagated? ==>
                  oracle.lockFailure.Some? || Some(r.outcome.error) == FaultAt(oracle.ledgerFault, 0))
            && (var a := Attempt(cfg, message, world.orders, oracle);
                r.outcome.Propagated? && oracle.lockFailure.None? ==>
                  a.result.Failure? && NotRetryable(a.result.error)
                  && Some(r.outcome.error) == FaultAt(oracle.ledgerFault, 0))
  {
    var r := ProcessOrder(cfg, message, world, oracle);
    LockAndLedgerKeysDiffer(message.orderId, message.orderId);
    if r.outcome.Handled? && NotRetryable(r.outcome.error) {
      var held := World(world.kv[LockKey(message.orderId) := Lock.Sentinel], world.orders);
      TakenRun(cfg, message, world, oracle);
      assert Attempt(cfg, message, held.orders, oracle).result == Failure(r.outcome.error);
      DeadLetterWritten(message.orderId, r.outcome.error, held.kv);
    }
  }

  /**
   * With the lock free, an attempt `a` that fails with `f` and is handled as
   * `h` without an escaping error ends `Handled(f, ...)`: the handler's store
   * with the lock gone, and the calls TRY-LOCK, the attempt's, the handler's
   * and the release.
   */
  lemma HandledRun(cfg: Config, message: OrderMessage, world: World, oracle: Oracle, f: Failure,
                   a: Attempted, h: Recovery)
    requires WellFormed(message, oracle) && LockFree(message, world, oracle) && !oracle.releaseFails
    requires a == Attempt(cfg, message, world.orders, oracle) && a.result == Failure(f)
    requires h == HandleProcessingError(message.orderId, f, world.kv[LockKey(message.orderId) := Lock.Sentinel],
                                        oracle.ledgerFault)
    requires h.escaped.None?
    ensures var lockKey := LockKey(message.orderId);
            ProcessOrder(cfg, message, world, oracle)
              == Run(Handled(f, h.handling), World(Lock.ReleaseLock(h.kv, lockKey), world.orders),
                     [TryLockCall(lockKey)] + a.calls + h.calls + [ReleaseCall(lockKey)])
  {
    var lockKey := LockKey(message.orderId);
    var held := World(world.kv[lockKey := Lock.Sentinel], world.orders);
    TakenRun(cfg, message, world, oracle);
    LockedAfterFailure(cfg, message, held, oracle, f);
    Regroup([TryLockCall(lockKey)], a.calls, h.calls, [ReleaseCall(lockKey)]);
  }

  lemma Regroup(w: seq<Call>, x: seq<Call>, y: seq<Call>, z: seq<Call>)
    ensures w + (x + y + z) == w + x + y + z
  {
  }

  /** Releasing the lock after the ledger write leaves the original store plus the record. */
  lemma ReleaseAfterRecord(kv: Store, orderId: string, record: string)
    requires LockKey(orderId) !in kv
    ensures var held := kv[LockKey(orderId) := Lock.Sentinel];
            Lock.ReleaseLock(held[Ledger.KeyFor(orderId) := record], LockKey(orderId))
              == kv[Ledger.KeyFor(orderId) := record]
  {
    LockAndLedgerKeysDiffer(orderId, orderId);
  }

  /**
   * With the lock free and a working ledger, a final failure `f` of the
   * attempt `a` leaves `"0|" + message` under the order's ledger key and
   * nothing else changed, and the run's calls end with that write and the
   * release.
   */
  lemma DeadLetteredRun(cfg: Config, message: OrderMessage, world: World, oracle: Oracle, f: Failure,
                        a: Attempted)
    requires WellFormed(message, oracle) && LockFree(message, world, oracle) && !oracle.releaseFails
    requires oracle.ledgerFault.None?
    requires a == Attempt(cfg, message, world.orders, oracle) && a.result == Failure(f) && NotRetryable(f)
    ensures var lockKey := LockKey(message.orderId);
            var key := Ledger.KeyFor(message.orderId);
            var record := "0|" + Message(f);
            ProcessOrder(cfg, message, world, oracle)
              == Run(Handled(f, DeadLettered), World(world.kv[key := record], world.orders),
                     [TryLockCall(lockKey)] + a.calls + [LedgerSet(key, record)] + [ReleaseCall(lockKey)])
  {
    var lockKey := LockKey(message.orderId);
    var key := Ledger.KeyFor(message.orderId);
    var record := "0|" + Message(f);
    var held := world.kv[lockKey := Lock.Sentinel];
    DeadLetterWritten(message.orderId, f, held);
    var h := Recovery(DeadLettered, None, held[key := record], [LedgerSet(key, record)]);
    HandledRun(cfg, message, world, oracle, f, a, h);
    ReleaseAfterRecord(world.kv, message.orderId, record);
  }

  /** Call lists assembled piecewise are the displayed lists. */
  lemma FourCalls(a: Call, b: Call, c: Call, d: Call)
    ensures [a] + [b] + [c] + [d] == [a, b, c, d]
  {
  }

  lemma FiveCalls(a: Call, b: Call, c: Call, d: Call, e: Call)
    ensures [a] + [b, c] + [d] + [e] == [a, b, c, d, e]
  {
  }

  /**
   * An order that already exists: no fetch and no save, the record becomes
   * `"0|Order already exist with ID: <id>"`, and the lock is released.
   */
  lemma ExistingOrderDeadLettered(cfg: Config, message: OrderMessage, world: World, oracle: Oracle)
    requires WellFormed(message, oracle)
    requires LockFree(message, world, oracle) && oracle.findFailure.None? && oracle.ledgerFault.None?
    requires !oracle.releaseFails
    requires message.orderId in world.orders
    ensures var r := ProcessOrder(cfg, message, world, oracle);
            var key := Ledger.KeyFor(message.orderId);
            var record := "0|" + "Order already exist with ID: " + message.orderId;
            && r.outcome == Handled(OrderAlreadyExists(message.orderId), DeadLettered)
            && r.world == World(world.kv[key := record], world.orders)
            && r.calls == [TryLockCall(LockKey(message.orderId)), FindById(message.orderId),
                           LedgerSet(key, record), ReleaseCall(LockKey(message.orderId))]
  {
    var failure := OrderAlreadyExists(message.orderId);
    var a := Attempted(Failure(failure), world.orders, [FindById(message.orderId)]);
    assert Attempt(cfg, message, world.orders, oracle) == a;
    var record := "0|" + Message(failure);
    assert record == "0|" + "Order already exist with ID: " + message.orderId;
    DeadLetteredRun(cfg, message, world, oracle, failure, a);
    FourCalls(TryLockCall(LockKey(message.orderId)), FindById(message.orderId),
              LedgerSet(Ledger.KeyFor(message.orderId), record), ReleaseCall(LockKey(message.orderId)));
  }

  /**
   * A customer that is not `ACTIVE`: no product is fetched and nothing is
   * saved, and the record becomes `"0|Inactive customer with ID: <id>"` with
   * the id the customer service returned.
   */
  lemma InactiveCustomerDeadLettered(cfg: Config, message: OrderMessage, world: World, oracle: Oracle,
                                     customer: CustomerDto)
    requires WellFormed(message, oracle)
    requires LockFree(message, world, oracle) && oracle.findFailure.None? && oracle.ledgerFault.None?
    requires !oracle.releaseFails
    requires message.orderId !in world.orders
    requires GetCustomerById(cfg, message.customerId, oracle.customer).result == Success(customer)
    requires customer.status != Active
    ensures var r := ProcessOrder(cfg, message, world, oracle);
            var key := Ledger.KeyFor(message.orderId);
            var record := "0|" + "Inactive customer with ID: " + customer.id;
            && r.outcome == Handled(InactiveCustomer(customer.id), DeadLettered)
            && r.world == World(world.kv[key := record], world.orders)
            && r.calls == [TryLockCall(LockKey(message.orderId)), FindById(message.orderId),
                           FetchCall(Url(cfg, CustomerService, message.customerId)),
                           LedgerSet(key, record), ReleaseCall(LockKey(message.orderId))]
  {
    var failure := InactiveCustomer(customer.id);
    var customerCall := FetchCall(Url(cfg, CustomerService, message.customerId));
    assert EnrichOrder(cfg, message, oracle) == Enriched(Failure(failure), [customerCall]);
    var a := Attempted(Failure(failure), world.orders, [FindById(message.orderId), customerCall]);
    assert Attempt(cfg, message, world.orders, oracle) == a;
    var record := "0|" + Message(failure);
    assert record == "0|" + "Inactive customer with ID: " + customer.id;
    DeadLetteredRun(cfg, message, world, oracle, failure, a);
    FiveCalls(TryLockCall(LockKey(message.orderId)), FindById(message.orderId), customerCall,
              LedgerSet(Ledger.KeyFor(message.orderId), record), ReleaseCall(LockKey(message.orderId)));
  }

  /** A customer 404 leaves `"0|Customer not found with ID: <id>"`, after a single request. */
  lemma MissingCustomerDeadLettered(cfg: Config, message: OrderMessage, world: World, oracle: Oracle)
    requires WellFormed(message, oracle)
    requires LockFree(message, world, oracle) && oracle.findFailure.None? && oracle.ledgerFault.None?
    requires !oracle.releaseFails
    requires message.orderId !in world.orders
    requires Answer(oracle.customer, 0) == ErrorStatus(NotFoundStatus)
    ensures var r := ProcessOrder(cfg, message, world, oracle);
            var key := Ledger.KeyFor(message.orderId);
            var record := "0|" + "Customer not found with ID: " + message.customerId;
            && r.outcome == Handled(CustomerNotFound(message.customerId), DeadLettered)
            && r.world == World(world.kv[key := record], world.orders)
            && GetCustomerById(cfg, message.customerId, oracle.customer).calls == 1
  {
    var failure := CustomerNotFound(message.customerId);
    var customerCall := FetchCall(Url(cfg, CustomerService, message.customerId));
    NotFoundRequestedOnce(CustomerService, message.customerId, oracle.customer, cfg.maxAttempts);
    assert EnrichOrder(cfg, message, oracle) == Enriched(Failure(failure), [customerCall]);
    var a := Attempted(Failure(failure), world.orders, [FindById(message.orderId), customerCall]);
    assert Attempt(cfg, message, world.orders, oracle) == a;
    assert "0|" + Message(failure) == "0|" + "Customer not found with ID: " + message.customerId;
    DeadLetteredRun(cfg, message, world, oracle, failure, a);
  }

  /** One message delivered by the consumer, with what the environment does while it is processed. */
  datatype Delivery = Delivery(message: OrderMessage, oracle: Oracle)

  /** The outcome of each delivery, and the world before each delivery followed by the final world. */
  datatype Trace = Trace(outcomes: seq<Outcome>, worlds: seq<World>)

  ghost predicate AllWellFormed(ds: seq<Delivery>) {
    forall i :: 0 <= i < |ds| ==> WellFormed(ds[i].message, ds[i].oracle)
  }

  /** One run only adds orders, and one that saves adds its message's order id, which was absent. */
  lemma SavedStep(cfg: Config, message: OrderMessage, world: World, oracle: Oracle)
    requires WellFormed(message, oracle)
    ensures var r := ProcessOrder(cfg, message, world, oracle);
            && world.orders.Keys <= r.world.orders.Keys
            && (r.outcome.Saved? ==>
                  && r.outcome.order.orderId == message.orderId
                  && message.orderId !in world.orders
                  && message.orderId in r.world.orders)
  {
    OrdersWrittenOnlyOnce(cfg, message, world, oracle);
    if ProcessOrder(cfg, message, world, oracle).outcome.Saved? {
      SavedOrderMatchesRequest(cfg, message, world, oracle);
    }
  }

  /**
   * The consumer processing deliveries one after another over a shared world.
   * Each delivery only adds orders, and one that saves does so under its
   * message's order id, which was absent before it and present after it.
   */
  function Deliver(cfg: Config, world: World, ds: seq<Delivery>): (t: Trace)
    requires AllWellFormed(ds)
    ensures |t.outcomes| == |ds| && |t.worlds| == |ds| + 1 && t.worlds[0] == world
    ensures forall j :: 0 <= j < |ds| ==> t.worlds[j].orders.Keys <= t.worlds[j + 1].orders.Keys
    ensures forall j :: 0 <= j < |ds| && t.outcomes[j].Saved? ==>
              && t.outcomes[j].order.orderId == ds[j].message.orderId
              && ds[j].message.orderId !in t.worlds[j].orders
              && ds[j].message.orderId in t.worlds[j + 1].orders
    decreases |ds|
  {
    if |ds| == 0 then Trace([], [world])
    else
      var r := ProcessOrder(cfg, ds[0].message, world, ds[0].oracle);
      SavedStep(cfg, ds[0].message, world, ds[0].oracle);
      assert AllWellFormed(ds[1..]);
      var rest := Deliver(cfg, r.world, ds[1..]);
      Trace([r.outcome] + rest.outcomes, [world] + rest.worlds)
  }

  /** Orders only accumulate along a trace. */
  lemma {:induction false} OrdersAccumulate(worlds: seq<World>, a: nat, b: nat)
    requires forall j :: 0 <= j < |worlds| - 1 ==> worlds[j].orders.Keys <= worlds[j + 1].orders.Keys
    requires a <= b < |worlds|
    ensures worlds[a].orders.Keys <= worlds[b].orders.Keys
    decreases b - a
  {
    if a < b {
      OrdersAccumulate(worlds, a + 1, b);
    }
  }

  /** Across any sequence of deliveries, no order id is saved twice. */
  lemma SavedAtMostOnce(cfg: Config, world: World, ds: seq<Delivery>, i: nat, j: nat)
    requires AllWellFormed(ds)
    requires i < j < |ds|
    requires Deliver(cfg, world, ds).outcomes[i].Saved? && Deliver(cfg, world, ds).outcomes[j].Saved?
    ensures Deliver(cfg, world, ds).outcomes[i].order.orderId != Deliver(cfg, world, ds).outcomes[j].order.orderId
  {
    var t := Deliver(cfg, world, ds);
    OrdersAccumulate(t.worlds, i + 1, j);
  }
}
