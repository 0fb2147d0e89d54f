/** What the handlers exchange with the outside: the outcome of an awaited call that may
    throw, and HTTP responses whose body is either a JSON value or plain text. */
module Http {
  import opened Values

  /** A thrown value: an `Error` object with its message, or anything else. */
  datatype Thrown = ErrorObject(message: string) | NonError

  /** The outcome of an awaited call: the value it resolved to, or what it threw. */
  datatype Outcome<+T> = Returned(value: T) | Threw(thrown: Thrown)

  /** `error instanceof Error ? error.message : 'Unknown error'`. */
  function ErrorMessage(t: Thrown): string {
    if t.ErrorObject? then t.message else "Unknown error"
  }

  datatype Body = Json(value: Value) | Text(text: string)

  datatype Response = Response(status: nat, body: Body)
}
