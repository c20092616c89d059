/** Options, results and the error codes of errors.py. */
module Results {
  datatype Option<+T> = None | Some(value: T)

  /**
   * The exceptions of the service. BackendError is the storage backend's own; the release store's
   * messages that speak of an incomplete release are StoreIncomplete, its other ones StoreError.
   */
  datatype Error =
    | BackendError
    | StoreError
    | StoreIncomplete
    | NotReady
    | SessionActive
    | ClientBusy
    | PublisherSessionActive
    | ReleaseBusy
    | ReleaseIncomplete
    | ReleaseNotStaged
    | ReleaseConflict
    | ConfirmationMismatch
    | OperationBusy
    | ReleaseNotReady
    | RestartRequired
    | TopologyMismatch

  datatype Result<+T> = Ok(value: T) | Err(error: Error) {
    predicate IsFailure() { Err? }
    function PropagateFailure<U>(): Result<U>
      requires Err?
    {
      Err(error)
    }

    function Extract(): T
      requires Ok?
    {
      value
    }
  }

  datatype Outcome = Pass | Fail(error: Error) {
    predicate IsFailure() { Fail? }
    function PropagateFailure<U>(): Result<U>
      requires Fail?
    {
      Err(error)
    }
  }
}
