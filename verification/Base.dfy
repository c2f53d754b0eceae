// Failure-carrying results shared by every module of the Host model.
module Base {
  datatype Option<+T> = None | Some(value: T)

  datatype Result<+T, +E> = Ok(value: T) | Err(error: E)

  // The exception classes of the Host, one constructor a class.
  datatype HostError =
    | ValueError
    | UnknownTask
    | RevisionConflict
    | EventConflict
    | JournalCorruption
    | IntegrityError
    | LeaseHeld
    | LeaseConflict
    | TerminalTaskConflict
    | TaskMissing
    | TaskRevisionMismatch
    | TaskStateMismatch
    | TaskFrontierMismatch
    | TaskProjectionDrift
    | TaskCommitRepeated
    | ObjectMissing
    | ObjectCorrupt
    | HostExtensionError
    | ToolArgumentError
    | ContextCompileError
    | SchemaMigrationError

  function Min(a: int, b: int): int { if a <= b then a else b }

  function Max(a: int, b: int): int { if a >= b then a else b }
}
