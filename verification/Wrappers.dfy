// Failure-compatible results for handlers that the host either commits or rolls back.

module Wrappers {

  type Addr = string

  datatype Option<+T> = None | Some(value: T)

  // Every way in which a handler, or a contract it calls, aborts the call.
  datatype Error =
    | Unauthorized
    | Underflow
    | Overflow
    | DivisionByZero
    | FailedExecute
    | CannotDeductTax
    | InsufficientFunds
    | InsufficientShares
    | InvalidRoute
    | SwapAmountDiffers
    | LimitMinimumReceived
    | CallFailed
    | TextTooLong
    | NotFound
    | InvalidAddress
    | FailBond
    | FailBondAndUnbond

  datatype Result<+T> = Ok(value: T) | Err(error: Error) {
    predicate IsFailure() {
      Err?
    }

    function PropagateFailure<U>(): Result<U>
      requires Err?
    {
      Err(error)
    }

    function Extract(): T
      requires Ok?
    {
      value
    }
  }
}
