/**
 * The exceptions the quiz-generation functions can raise, as one closed set,
 * and a failure-compatible result type that carries them.
 */
module Results {

  datatype Error =
      /** Raised by the code itself: the Gemini credential is not configured. */
    | ValueError(message: string)
      /** `.get` or `.pop` called on a value that has no such method (a list, a str, ...). */
    | AttributeError
      /** `in` or iteration on a value that is not a container, or `list.pop` given a str. */
    | TypeError
      /** Anything raised inside yt-dlp, Whisper, the Gemini client or json.loads. */
    | ExternalError(message: string)

  /** A value, or the exception that was raised instead of returning one. */
  datatype Result<+T> = Ok(value: T) | Err(error: Error)
  {
    predicate IsFailure() {
      Err?
    }

    function PropagateFailure<U>(): Result<U>
      requires Err?
    {
      Err(error)
    }

    function Extract(): T
      requires Ok?
    {
      value
    }
  }
}
