/** Optional values, results and the error codes the modelled operations report. */
module Results {

  datatype Option<+T> = None | Some(value: T)

  datatype Result<+T> = Success(value: T) | Failure(code: ErrorCode)

  datatype ErrorCode =
    | ConfigParseSyntaxError
    | ConfigInvalidValue
    | ConfigSchemaInvalid
    | SessionInvalidState
    | SessionRuntimeDirectoryFailed
    | ProcessInvalidState
    | ProcessSpawnFailed
    | ProcessNotFound
    | ProcessRegistrationFailed
    | ComponentExecutableNotFound
    | ComponentPrepareFailed
    | ComponentInvalidState
    | ComponentSpawnFailed
    | ComponentCrash
    | ComponentProtocolError
    | ComponentTimeout
    | RecoveryPreconditionFailed
    | RecoveryNotAllowed
    | RecoveryExhausted
    | RecoveryInProgress
    | RecoveryReadinessFailed
}
