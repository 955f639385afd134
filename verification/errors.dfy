/** Failures the automation tasks raise, and the JavaScript error class each surfaces as. */
module Errors {

  /** The JavaScript class of a thrown error; tests match on it. */
  datatype ErrorClass = TypeError | RangeError | PlainError

  /** One constructor per distinct throw site (or implicit JavaScript failure) of the modelled core. */
  datatype Error =
    | UnknownReserve(reserve: string)          // a TypeError in test/strategy.test.js:160-162; throw site not modelled
    | MissingBalance(underlyer: string)        // a TypeError in test/strategy.test.js:181-183; throw site not modelled
    | EmptyAmounts                             // argmax over an empty list
    | UnknownPosition(position: string)        // destructuring an absent index position
    | PositionNotConfigured(position: string, token: string)
    | ClaimLengthMismatch
    | UnknownSwap(swap: string)                // destructuring an absent swap configuration
    | NegativePrice
    | NegativeSlippage
    | NegativeMinAmount
    | NoRewardTokens
    | ValueTooLow(minAmount: int)

  function Class(e: Error): ErrorClass
  {
    match e
    case UnknownReserve(_) => TypeError
    case MissingBalance(_) => TypeError
    case UnknownPosition(_) => TypeError
    case UnknownSwap(_) => TypeError
    case EmptyAmounts => RangeError
    case NegativePrice => RangeError
    case NegativeSlippage => RangeError
    case NegativeMinAmount => RangeError
    case PositionNotConfigured(_, _) => PlainError
    case ClaimLengthMismatch => PlainError
    case NoRewardTokens => PlainError
    case ValueTooLow(_) => PlainError
  }

  /** A value or the error that was thrown instead; usable with `:-`. */
  datatype Result<+T> = Ok(value: T) | Err(error: Error) {

    predicate IsFailure() {
      Err?
    }

    function PropagateFailure<U>(): Result<U>
      requires Err?
    {
      Err(error)
    }

    function Extract(): T
      requires Ok?
    {
      value
    }
  }
}

/** Token identities and amounts as the tasks pass them around: `{ address, amount }`. */
module Tokens {

  /** A checksummed hex address string, compared exactly as JavaScript compares strings. */
  type Address = string

  /** An amount in the token's smallest unit; BigInt, so unbounded and signed. */
  datatype TokenAmount = TokenAmount(address: Address, amount: int)
}
