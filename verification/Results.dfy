/** Success-or-error values shared by every service. */
module Results {

  datatype Option<+T> = None | Some(value: T)

  /** The error classes the services tell apart. `Fault` stands for any failure of the
      database itself (lost connection, failed statement, failed commit). */
  datatype Error =
    | Fault
    | InvalidAmount
    | ReferenceRequired
    | SameAccountTransfer
    | SameCurrencyExchange
    | UnsupportedCurrency
    | CurrencyMismatch
    | InsufficientFunds
    | NotFound
    | UniqueViolation
    | CheckViolation
    | UnexpectedRows
    | InvalidTransition
    | NotInManualReview
    | DepositInProgress
    | PayloadMismatch
    | UnsupportedState
    | Canceled

  datatype Result<+T> = Ok(value: T) | Err(error: Error) {
    predicate IsFailure() { Err? }

    function PropagateFailure<U>(): Result<U>
      requires Err?
    {
      Err(error)
    }

    function Extract(): T
      requires Ok?
    {
      value
    }
  }
}
