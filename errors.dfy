/**
 * The program's error codes and the failure-compatible result type every
 * instruction returns.
 */
module Errors {

  /** The program's own error codes, in declaration order. */
  datatype BigBallsError =
    | TradingNotEnabled
    | ExceedsMaxTransaction
    | ExceedsMaxWallet
    | CooldownNotElapsed
    | InvalidFeeCalculation
    | InvalidAmount
    | Unauthorized
    | InvalidMarketingWallet
    | InvalidFeeConfiguration

  /** Failures reported by the external token ledger. */
  datatype LedgerError =
    | InsufficientFunds   // the source account holds less than the amount moved
    | Overflow            // the destination balance would leave the u64 range
    | AccountRejected     // the ledger refused the request (missing rights, frozen or invalid account)

  /** Why an instruction failed. `ArithmeticOverflow` is a checked u64 operation that panics. */
  datatype Error =
    | Program(code: BigBallsError)
    | Ledger(cause: LedgerError)
    | ArithmeticOverflow

  datatype Result<+T> = Ok(value: T) | Err(error: Error) {

    predicate IsFailure() {
      Err?
    }

    function PropagateFailure<U>(): Result<U>
      requires Err?
    {
      Err(error)
    }

    function Extract(): T
      requires Ok?
    {
      value
    }
  }
}
