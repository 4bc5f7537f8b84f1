/** Optional values and fallible results. */
module Results {

  datatype Option<T> = None | Some(value: T)

  datatype Result<T, E> = Success(value: T) | Failure(error: E) {
    predicate IsFailure() { Failure? }

    function PropagateFailure<U>(): Result<U, E>
      requires Failure?
    {
      Failure(error)
    }

    function Extract(): T
      requires Success?
    {
      value
    }
  }

  /** What a service call can raise. Every error up to TeardownError derives from the
      source's RunPodManagerError, so `except RunPodManagerError` catches it; a ValueError,
      the cancellation of the call and the death of the process are not caught. */
  datatype Exception =
    | ManagerError | ConflictError | AuthorizationError | ReadinessError | AmbiguousError | TransportError
    | LifecycleError | CleanupError | TeardownError
    | ValueError | Interrupted | Crash
  {
    predicate Caught() { this != ValueError && this != Interrupted && this != Crash }
  }
}
