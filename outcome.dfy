/** Optional values and the outcome of an asynchronous call (a resolved or a
    rejected promise), shared by every page of the application. */
module Outcome {

  /** `T | null | undefined` in the source. */
  datatype Option<+T> = None | Some(value: T) {

    /** `x ?? fallback` */
    function GetOr(fallback: T): T {
      match this
      case Some(v) => v
      case None => fallback
    }
  }

  /** A call that either resolves with `value` or rejects with an error whose
      `message` is the given text (possibly empty). */
  datatype Outcome<+T> = Ok(value: T) | Err(message: string)

  /** The text shown by `alert(e?.message || fallback)`: the error's own
      message when it is non-empty, otherwise the fallback. */
  function AlertText(message: string, fallback: string): string {
    if message != "" then message else fallback
  }
}
