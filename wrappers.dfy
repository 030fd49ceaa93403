/** Option and Result: the shapes the model uses for JavaScript's
    `undefined`/`null` and for a promise that resolves or rejects. */
module Wrappers {

  datatype Option<+T> = None | Some(value: T)
  {
    /** The value if present, otherwise the fallback: the field a spread such as
        `{ ...prev, ...patch }` keeps when the patch leaves it out. */
    function GetOr(fallback: T): T
    {
      match this
      case Some(v) => v
      case None => fallback
    }
  }

  /** The failure the HTTP client throws on a non-2xx answer or a network error:
      it carries the numeric status and the status text. */
  datatype HttpError = HttpError(status: int, statusText: string)

  /** A settled request: resolved with a value or rejected with an error. */
  datatype Result<+T> = Ok(value: T) | Err(error: HttpError)

  /** Why an action did not change the state: the server rejected the request,
      or the cache had no entry where the code indexes one (a TypeError in
      JavaScript). */
  datatype Failure = Http(error: HttpError) | MissingEntry

  /** How an action of the post list or of a comment cache settled: its state
      update was applied, it returned early, it failed inside its own
      `try`/`catch` (the error is only logged), or the failure escaped it (a
      rejected promise, or an exception from inside a state updater). */
  datatype Outcome = Applied | Skipped | Logged(failure: Failure) | Thrown(failure: Failure)
}
