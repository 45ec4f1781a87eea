/**
 * `EnrichmentClient`: GET a customer or a product by id, map error statuses
 * to failures (404 to the typed not-found failure, any other error status to
 * `ExternalApi`) and retry every failure except not-found, at most
 * `maxAttempts` times after the first request.
 *
 * The server's behaviour is a script: the response to the first request, to
 * the first retry, and so on. Requests past the end of the script get no
 * response. Back-off delays and jitter are not modelled.
 */
module Enrichment {
  import opened Results
  import opened Errors

  datatype CustomerStatus = Active | Inactive | Unset

  datatype CustomerDto = CustomerDto(id: string, name: string, email: string, status: CustomerStatus)

  /** A Java `double`, carried from response to order without arithmetic. */
  datatype Price = Price(amount: real)

  datatype ProductDto = ProductDto(id: string, name: string, description: string, price: Price)

  /**
   * The configuration the client reads: the two base URLs and the retry
   * budget. The back-off multiplier is configurable but never read.
   */
  datatype Config = Config(customerBase: string, productBase: string, maxAttempts: int)

  /** The statuses `HttpStatusCode::isError` accepts. */
  type ErrorCode = c: int | 400 <= c <= 599 witness 500

  const NotFoundStatus: ErrorCode := 404

  datatype Response<T> =
    | Body(value: T)
    | ErrorStatus(code: ErrorCode)
    | Unreachable(detail: string)

  function Base(cfg: Config, resource: Resource): string {
    match resource
    case CustomerService => cfg.customerBase
    case ProductService => cfg.productBase
  }

  /** The request URL: the service's base, a slash, the id. */
  function Url(cfg: Config, resource: Resource, id: string): (url: string)
    ensures |url| == |Base(cfg, resource)| + 1 + |id|
    ensures url[..|Base(cfg, resource)|] == Base(cfg, resource)
    ensures url[|Base(cfg, resource)|] == '/'
    ensures url[|Base(cfg, resource)| + 1..] == id
  {
    Base(cfg, resource) + "/" + id
  }

  /** Distinct ids are requested at distinct URLs. */
  lemma UrlInjective(cfg: Config, resource: Resource, a: string, b: string)
    requires Url(cfg, resource, a) == Url(cfg, resource, b)
    ensures a == b
  {
  }

  function NotFound(resource: Resource, id: string): Failure {
    match resource
    case CustomerService => CustomerNotFound(id)
    case ProductService => ProductNotFound(id)
  }

  /** The retry filter: everything but the resource's own not-found failure. */
  predicate Retryable(resource: Resource, f: Failure) {
    match resource
    case CustomerService => !f.CustomerNotFound?
    case ProductService => !f.ProductNotFound?
  }

  /** `onStatus` plus body decoding: what one request yields. */
  function Classify<T>(resource: Resource, id: string, response: Response<T>): (r: Result<T, Failure>)
    ensures r.Success? <==> response.Body?
    ensures r.Success? ==> r.value == response.value
    ensures r.Failure? ==> (Retryable(resource, r.error) <==> response != ErrorStatus(NotFoundStatus))
    ensures response == ErrorStatus(NotFoundStatus) ==> r == Failure(NotFound(resource, id))
    ensures response.ErrorStatus? && response.code != 404 ==>
              r == Failure(ExternalApi(resource, id, response.code))
  {
    match response
    case Body(v) => Success(v)
    case ErrorStatus(code) =>
      if code == 404 then Failure(NotFound(resource, id)) else Failure(ExternalApi(resource, id, code))
    case Unreachable(detail) => Failure(Transport(detail))
  }

  /**
   * The retry filter and `shouldNotRetry` agree: a failure one request can
   * produce is retried by the fetch exactly when the handler would count it
   * as retryable.
   */
  lemma FilterAgreesWithHandler<T>(resource: Resource, id: string, response: Response<T>)
    ensures var r := Classify(resource, id, response);
            r.Failure? ==> (Retryable(resource, r.error) <==> !NotRetryable(r.error))
  {
  }

  /** The response to request number `i` (0 is the first request). */
  function Answer<T>(script: seq<Response<T>>, i: nat): Response<T> {
    if i < |script| then script[i] else Unreachable("no response")
  }

  /** The outcome of a fetch and the number of requests it took. */
  datatype Fetched<T> = Fetched(result: Result<T, Failure>, calls: nat)

  /** The failure of request `k`, when that request failed in a way the filter retries. */
  predicate RetriedAt<T>(resource: Resource, id: string, script: seq<Response<T>>, k: nat) {
    var r := Classify(resource, id, Answer(script, k));
    r.Failure? && Retryable(resource, r.error)
  }

  /**
   * The retry operator from request number `retries` on: a success or a
   * filtered-out failure ends it at once; a retryable failure is retried
   * while fewer than `maxAttempts` retries have been made and otherwise
   * ends it with `RetriesExhausted`.
   */
  function FetchFrom<T>(resource: Resource, id: string, script: seq<Response<T>>, maxAttempts: int, retries: nat)
    : (r: Fetched<T>)
    ensures retries < r.calls
    ensures r.calls - 1 <= if maxAttempts > retries then maxAttempts else retries
    ensures forall k :: retries <= k < r.calls - 1 ==> RetriedAt(resource, id, script, k)
    ensures var last := Classify(resource, id, Answer(script, r.calls - 1));
            if last.Success? || !Retryable(resource, last.error) then r.result == last
            else r.calls - 1 >= maxAttempts
                 && r.result == Failure(RetriesExhausted(r.calls - 1, maxAttempts, last.error))
    decreases maxAttempts - retries
  {
    match Classify(resource, id, Answer(script, retries))
    case Success(v) => Fetched(Success(v), retries + 1)
    case Failure(e) =>
      if !Retryable(resource, e) then Fetched(Failure(e), retries + 1)
      else if retries >= maxAttempts then
        Fetched(Failure(RetriesExhausted(retries, maxAttempts, e)), retries + 1)
      else FetchFrom(resource, id, script, maxAttempts, retries + 1)
  }

  /**
   * `getCustomerById`: at least one request and at most `maxAttempts` retries;
   * a customer handed back is the body of the response that ended the fetch;
   * a first-request 404 ends it at once as `CustomerNotFound`, and that
   * failure only ever comes from a 404.
   */
  function GetCustomerById(cfg: Config, customerId: string, script: seq<Response<CustomerDto>>)
    : (f: Fetched<CustomerDto>)
    ensures 1 <= f.calls <= (if cfg.maxAttempts > 0 then cfg.maxAttempts else 0) + 1
    ensures f.result.Success? ==> Answer(script, f.calls - 1) == Body(f.result.value)
    ensures Answer(script, 0) == ErrorStatus(NotFoundStatus) ==>
              f == Fetched(Failure(CustomerNotFound(customerId)), 1)
    ensures f.result.Failure? && f.result.error.CustomerNotFound? ==>
              f.result.error == CustomerNotFound(customerId)
              && Answer(script, f.calls - 1) == ErrorStatus(NotFoundStatus)
  {
    FetchFrom(CustomerService, customerId, script, cfg.maxAttempts, 0)
  }

  /** `getProductById`: the same retry contract, with `ProductNotFound` for a 404. */
  function GetProductById(cfg: Config, productId: string, script: seq<Response<ProductDto>>)
    : (f: Fetched<ProductDto>)
    ensures 1 <= f.calls <= (if cfg.maxAttempts > 0 then cfg.maxAttempts else 0) + 1
    ensures f.result.Success? ==> Answer(script, f.calls - 1) == Body(f.result.value)
    ensures Answer(script, 0) == ErrorStatus(NotFoundStatus) ==>
              f == Fetched(Failure(ProductNotFound(productId)), 1)
    ensures f.result.Failure? && f.result.error.ProductNotFound? ==>
              f.result.error == ProductNotFound(productId)
              && Answer(script, f.calls - 1) == ErrorStatus(NotFoundStatus)
  {
    FetchFrom(ProductService, productId, script, cfg.maxAttempts, 0)
  }

  /** A fetch makes at least one request and at most `maxAttempts` retries. */
  lemma FetchBounded<T>(resource: Resource, id: string, script: seq<Response<T>>, maxAttempts: int)
    ensures var f := FetchFrom(resource, id, script, maxAttempts, 0);
            1 <= f.calls <= (if maxAttempts > 0 then maxAttempts else 0) + 1
  {
  }

  /** A successful response body is handed back as it came. */
  lemma SuccessIsBody<T>(resource: Resource, id: string, script: seq<Response<T>>, maxAttempts: int)
    ensures var f := FetchFrom(resource, id, script, maxAttempts, 0);
            f.result.Success? ==> Answer(script, f.calls - 1) == Body(f.result.value)
  {
  }

  /** A 404 on the first request ends the fetch there: not-found is never retried. */
  lemma NotFoundRequestedOnce<T>(resource: Resource, id: string, script: seq<Response<T>>, maxAttempts: int)
    requires Answer(script, 0) == ErrorStatus(NotFoundStatus)
    ensures FetchFrom(resource, id, script, maxAttempts, 0) == Fetched(Failure(NotFound(resource, id)), 1)
  {
  }

  /** A customer 404 surfaces as `CustomerNotFoundException` with its message. */
  lemma CustomerNotFoundMessage(cfg: Config, customerId: string, script: seq<Response<CustomerDto>>)
    requires Answer(script, 0) == ErrorStatus(NotFoundStatus)
    ensures GetCustomerById(cfg, customerId, script).result == Failure(CustomerNotFound(customerId))
    ensures Message(GetCustomerById(cfg, customerId, script).result.error)
              == "Customer not found with ID: " + customerId
  {
  }

  /** A product 404 surfaces as `ProductNotFoundException` with its message. */
  lemma ProductNotFoundMessage(cfg: Config, productId: string, script: seq<Response<ProductDto>>)
    requires Answer(script, 0) == ErrorStatus(NotFoundStatus)
    ensures GetProductById(cfg, productId, script).result == Failure(ProductNotFound(productId))
    ensures Message(GetProductById(cfg, productId, script).result.error)
              == "Product not found with ID: " + productId
  {
  }

  /**
   * When every allowed request fails retryably, the fetch makes exactly
   * `maxAttempts + 1` requests and gives up with the last failure attached.
   */
  lemma {:induction false} ExhaustedAfterEveryRetry<T>(
    resource: Resource, id: string, script: seq<Response<T>>, maxAttempts: nat, retries: nat)
    requires retries <= maxAttempts
    requires forall k :: retries <= k <= maxAttempts ==> RetriedAt(resource, id, script, k)
    ensures var f := FetchFrom(resource, id, script, maxAttempts, retries);
            && f.calls == maxAttempts + 1
            && Classify(resource, id, Answer(script, maxAttempts)).Failure?
            && f.result == Failure(RetriesExhausted(maxAttempts, maxAttempts,
                                     Classify(resource, id, Answer(script, maxAttempts)).error))
    decreases maxAttempts - retries
  {
    assert RetriedAt(resource, id, script, retries);
    if retries < maxAttempts {
      ExhaustedAfterEveryRetry(resource, id, script, maxAttempts, retries + 1);
    }
  }
}
