/** Optional values, results and the error values that callers can tell apart. */
module Prelude {

  datatype Option<+T> = None | Some(value: T)

  /** The errors the controllers return. Only what a caller can observe with
      `errors.Is`/`errors.As` is kept apart; any other failure is `Failure`. */
  datatype Error =
    | RetryAfter(seconds: nat)      // *api.RetryError
    | NoEligibleBackends            // ErrNoEligibleBackends
    | NetworkStackConfig            // ErrNetworkStackConfig
    | NoReadyNodes                  // "no ready nodes available for load balancer"
    | BugDetected                   // "BUG detected: ..."
    | NotFound                      // errLBNotFound
    | Failure
    | Aggregate(errors: seq<Error>) // utilerrors.Aggregate: hides a RetryError from errors.As

  datatype Result<+T> = Ok(value: T) | Err(error: Error) {

    predicate IsFailure() {
      Err?
    }

    function PropagateFailure<U>(): Result<U>
      requires Err?
    {
      Err(error)
    }

    function Extract(): T
      requires Ok?
    {
      value
    }
  }
}
