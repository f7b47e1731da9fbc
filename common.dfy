/** Values shared by every layer of the app: optional values, Kotlin's
    `Result`, thrown exceptions and the shape of an HTTP response. */
module Common {

  datatype Option<+T> = None | Some(value: T)

  /** A thrown exception. Only its (nullable) message is ever observed. */
  datatype Error = Error(message: Option<string>)

  /** Kotlin's `Result<T>`: `Result.success(v)` or `Result.failure(e)`. */
  datatype Result<+T> = Success(value: T) | Failure(error: Error)

  /** A call into code outside the model that either returns a value or throws. */
  datatype Outcome<+T> = Returned(value: T) | Raised(exception: Error)

  /** A Retrofit `Response`: status code, status message and a nullable body. */
  datatype Response<+T> = Response(code: int, message: string, body: Option<T>)
  {
    /** Retrofit's `isSuccessful`: a status code in 200..299. */
    predicate IsSuccessful() {
      200 <= code < 300
    }
  }

  /** The message of the exception Kotlin's `first()` throws on an empty list. */
  const EmptyListMessage := "List is empty."

  /** `e.message ?: fallback`, the message shown for a failure. */
  function MessageOr(e: Error, fallback: string): (m: string)
    ensures e.message.Some? ==> m == e.message.value
    ensures e.message.None? ==> m == fallback
  {
    match e.message
    case Some(text) => text
    case None => fallback
  }
}
