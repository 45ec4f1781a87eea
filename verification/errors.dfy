/**
 * The failures the order worker raises or receives, with the message text each
 * one carries (`getMessage()`), and the pipeline's split into failures worth
 * retrying and failures that are final.
 */
module Errors {
  import Decimal

  /** The two external services the worker reads from. */
  datatype Resource = CustomerService | ProductService

  datatype Failure =
    | CustomerNotFound(customerId: string)
    | ProductNotFound(productId: string)
    | InactiveCustomer(customerId: string)
    | OrderAlreadyExists(orderId: string)
      /** A non-404 error status from a service. */
    | ExternalApi(resource: Resource, id: string, status: int)
      /** A request that got no HTTP response at all (connection refused, reset, ...). */
    | Transport(detail: string)
      /** The retry operator gave up after `retries` retries allowed by `maxAttempts`. */
    | RetriesExhausted(retries: int, maxAttempts: int, last: Failure)
      /** Redis or MongoDB could not complete a command. */
    | StoreError(detail: string)
    | MalformedLedgerValue(key: string)
      /** `Integer.parseInt` refused the count in a ledger value. */
    | NumberFormat(input: string)

  function ResourceName(r: Resource): string {
    match r
    case CustomerService => "customer"
    case ProductService => "product"
  }

  /** The exception's message text, which the ledger stores as its payload. */
  function Message(f: Failure): string {
    match f
    case CustomerNotFound(id) => "Customer not found with ID: " + id
    case ProductNotFound(id) => "Product not found with ID: " + id
    case InactiveCustomer(id) => "Inactive customer with ID: " + id
    case OrderAlreadyExists(id) => "Order already exist with ID: " + id
    case ExternalApi(r, id, status) =>
      "Error while retrieving " + ResourceName(r) + " " + id + ". Status: " + Decimal.IntToString(status)
    case Transport(detail) => detail
    case RetriesExhausted(retries, maxAttempts, _) =>
      // With transient errors on, the text gives the retries in a row and in
      // total; one request is never reset by a value, so the two agree.
      "Retries exhausted: " + Decimal.IntToString(retries) + "/" + Decimal.IntToString(maxAttempts)
        + " in a row (" + Decimal.IntToString(retries) + " total)"
    case StoreError(detail) => detail
    case MalformedLedgerValue(key) => "Malformed Redis value for key: " + key
    case NumberFormat(input) => "For input string: \"" + input + "\""
  }

  /** `shouldNotRetry`: the four business failures that another attempt cannot cure. */
  predicate NotRetryable(f: Failure) {
    f.CustomerNotFound? || f.ProductNotFound? || f.InactiveCustomer? || f.OrderAlreadyExists?
  }
}
