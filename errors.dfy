/** Failures of the client. The source throws `TrelloException(message)` for every
    failure it detects itself; a reply body of the wrong shape makes the .NET runtime
    throw instead (a null dictionary, a missing key or a failed cast). */
module Errors {

  datatype TrelloError =
    | TrelloException(message: string)
      /** The parsed reply is not a JSON object holding an array under `field`. */
    | MalformedResponse(field: string)

  /** The value of an operation that returns something, or the error it raised. */
  datatype Result<+T> = Success(value: T) | Failure(error: TrelloError)

  /** The outcome of an operation that returns nothing. */
  datatype Outcome = Pass | Fail(error: TrelloError)
}
