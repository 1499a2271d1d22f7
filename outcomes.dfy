/** Outcomes of the inventory bookkeeping. Every ValueError that the store's model layer
    raises becomes a Fail value carrying one of the errors below. */
module Outcomes {

  /** One constructor per raise site. */
  datatype Error =
    | NonPositiveQuantity               // adding a quantity that is zero or negative
    | InsufficientStock                 // decreasing stock by more than it holds
    | ExceedsAvailable(available: nat)  // adding more than the stock; reports the stock
    | ExceedsMaximum(maximum: nat)      // storing an item above what it may hold; reports that bound

  /** The result of an operation that changes state and returns nothing else. */
  datatype Outcome = Ok | Fail(error: Error)

  /** The result of a computation that yields a value or raises. */
  datatype Result<T> = Success(value: T) | Failure(error: Error)

  datatype Option<T> = None | Some(value: T)
}
