/** The vocabulary of the gateway: identifiers, cancellation reasons and the events an
    execution writes to its initiator and to the observers. */
module Messages {
  import opened Collections

  type Id = string
  type Reason = string

  /** The capability an execution is routed by, and the reason of a cancellation by a lost connection. */
  const EXECUTION := "execution"
  const DISCONNECT: Reason := "disconnect"

  /** A JSON value, as the text the codec gives it. */
  type Data = string

  /** What a call rejects with: an Error, or any other thrown value and its String() form. */
  datatype Failure = ErrorObject(message: string) | Thrown(rendered: string)

  /** The execution events; request ids, execution ids and durations are left out of them. */
  datatype Event =
    | Retry(attempt: nat, maxAttempts: nat, delayMs: real, error: string)
    | Cancelled(reason: Reason)
    | Error(message: string)
    | Done(exitCode: int, result: Option<Data>)
}
