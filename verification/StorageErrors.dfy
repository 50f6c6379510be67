/** Kinds of failed storage calls. */
module StorageErrors {

  datatype ErrorKind =
    | NoError | Network | Http | AccessDenied | InvalidCredentials | NoSuchBucket | NoSuchKey
    | Conflict | Throttled | CancelledByUser | LocalIo | Internal

  /** Credential problems open a message box, which is modal; other errors only reach the log. */
  predicate Interrupts(kind: ErrorKind) {
    kind == InvalidCredentials || kind == AccessDenied
  }

  datatype StorageError = StorageError(kind: ErrorKind, httpStatus: int)
  {
    predicate Retryable() {
      kind == Network || kind == Throttled || (kind == Http && httpStatus >= 500)
    }
  }
}
