/**
 * Shared value wrappers: an optional value, the exceptions the scopes runtime raises,
 * and a result that carries either a value or one of those exceptions.
 */
module Outcomes {

  datatype Option<+T> = None | Some(value: T)

  /** The exception kinds thrown by the modelled code. */
  datatype Error =
    | InvalidArgument(message: string)           // unity::InvalidArgumentException
    | NotFound(message: string, name: string)    // unity::scopes::NotFoundException(msg, name)
    | LogicError(message: string)                // unity::LogicException
    | RegistryError(message: string)             // unity::scopes::RegistryException
    | OutOfRange(message: string)                // std::out_of_range
    | ExternalError(message: string)             // thrown by a collaborator outside the model

  datatype Result<+T> = Ok(value: T) | Err(error: Error) {
    predicate IsFailure() { Err? }

    function PropagateFailure<U>(): Result<U>
      requires Err?
    {
      Err(error)
    }

    function Extract(): T
      requires Ok?
    {
      value
    }
  }
}
