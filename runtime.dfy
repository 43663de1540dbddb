/** The Java-side values the producer dispatcher exchanges with its collaborators:
    exceptions, returned objects and futures, responses, and the invocation record. */
module Runtime {

  datatype Option<T> = None | Some(value: T)

  /** The exception classes the dispatcher tells apart; any other throwable is OtherThrowable.
      IllegalArgumentException stands for that class and its subclasses. */
  datatype Throwable =
    | IllegalArgumentException
    | InvocationTargetException(target: Throwable)
    | InvocationException(status: int, reason: string, message: string, cause: Throwable)
    | NullPointerException
    | ClassCastException
    | OtherThrowable(name: string)

  /** What a call into a collaborator does: it returns a value or it throws. */
  datatype Outcome<T> = Returned(value: T) | Raised(error: Throwable)

  /** An object returned by the business method. A CompletableFuture is either still pending
      (settled == None) or already completed when the dispatcher sees it. */
  datatype Value = Null | Obj(id: int) | Future(settled: Option<Settlement>)

  /** How a CompletableFuture completes: normally with a result, or exceptionally. */
  datatype Settlement = Normal(result: Value) | Exceptional(ex: Throwable)

  /** The uniform response handed to the completion callback. The dispatcher never builds or
      inspects one: responses come only from the response mapper and the exception factory. */
  datatype Response = Succeeded(status: int, result: Value) | Failed(status: int, error: Throwable)

  /** One inbound call: its diagnostic name, its swagger-level arguments and its current status.
      The dispatcher reads only the status, which it hands to the response mapper; the name and
      the arguments reach only its collaborators, through the invocation itself. */
  datatype Invocation = Invocation(qualifiedName: string, arguments: seq<Value>, status: int)

  /** The declared return type of the bound producer method, as far as dispatch cares. */
  datatype JavaClass = CompletableFutureClass | OtherClass(name: string)

  /** The positional argument array handed to the producer method. */
  type Args = seq<Value>

  /** Status code of Status.BAD_REQUEST. */
  const BAD_REQUEST: int := 400

  /** The fixed message given to a request whose arguments do not fit the producer method. */
  const PARAMETERS_NOT_VALID: string := "Parameters not valid or types not match."

  /** The InvocationException the dispatcher raises in place of an IllegalArgumentException. */
  function BadRequest(cause: Throwable): Throwable
  {
    InvocationException(BAD_REQUEST, "", PARAMETERS_NOT_VALID, cause)
  }
}
