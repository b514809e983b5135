/**
 * How a step of the reconciliation engine ends, and the errors it reports.
 *
 * The Go code returns an `error` (nil or not) and, on a few paths, ends the
 * whole process (`os.Exit(1)` in checkNestedFields and exitOnError, or a
 * `panic`).  Both are represented here: `Failed` carries a returned error,
 * `Fatal` stands for the process ending.
 */
module Outcomes {

  datatype Option<+T> = None | Some(value: T)

  /** An error reported by the object store client. */
  datatype ApiError =
    | NotFound
    | Forbidden
    | OtherApiError(text: string)

  /** A returned Go error, with the context that errs.Wrap / fmt.Errorf add. */
  datatype Error =
    | WaitTimeout                           // wait.ErrWaitTimeout
    | ClientError(api: ApiError)            // an object store error passed on as it is
    | Message(text: string)                 // errs.New / fmt.Errorf without a cause
    | Wrapped(context: string, cause: Error) // errs.Wrap(cause, context), fmt.Errorf("...(%v)", cause)

  datatype Outcome<+T> =
    | Done(value: T)
    | Failed(error: Error)
    | Fatal(reason: string)
  {
    predicate Stops() { !Done? }
  }

  type Status = Outcome<()>

  /** errs.Wrap(err, context): a nil error stays nil, anything else gets the context. */
  function Wrap(context: string, s: Status): (r: Status)
    ensures s.Failed? ==> r == Failed(Wrapped(context, s.error))
    ensures !s.Failed? ==> r == s
  {
    if s.Failed? then Failed(Wrapped(context, s.error)) else s
  }

  const Ok: Status := Done(())

  /** How an outcome ends, with its value dropped. */
  function StatusOf<T>(o: Outcome<T>): Status
  {
    match o
    case Done(_) => Ok
    case Failed(e) => Failed(e)
    case Fatal(reason) => Fatal(reason)
  }

  /** The answer of the object store to one Get or List call. */
  datatype Fetch<+T> = Fetched(item: T) | FetchFailed(error: ApiError)

  predicate IsNotFound<T>(f: Fetch<T>) { f.FetchFailed? && f.error.NotFound? }
}
