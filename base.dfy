/** Values shared by the whole model: the errors that the collaborators raise and
    the wrappers that carry a value or an error. */
module Base {

  /** An error raised by a collaborator (the wallet, the CA, the gateway, the
      ledger or the JSON library). The application never inspects it: it only
      passes it on. */
  datatype Error = Error(message: string)

  datatype Option<T> = None | Some(value: T)

  /** The value of an awaited call, or the exception it threw. */
  datatype Result<T> = Success(value: T) | Failure(error: Error)

  /** The completion of an awaited call that yields nothing, or its exception. */
  datatype Outcome = Pass | Fail(error: Error)

  /** What a call that may be made to fail does: throw the injected error, or complete. */
  function OutcomeOf(fault: Option<Error>): Outcome {
    match fault
    case None => Pass
    case Some(e) => Fail(e)
  }
}
