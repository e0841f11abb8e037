/**
 * The client-side chat proxy (ChatProxy.SendMessageAsync): one call to the chat
 * backend, whose Result is turned into the text shown as the assistant's reply.
 * An exception thrown by the backend call is rethrown unchanged.
 */
module ChatProxy {

  /** The backend's Result<string>: IsSuccess with Value, or a failure with Error. */
  datatype ChatResult = Success(value: string) | Failure(error: string)

  /** An exception; the model keeps only a description to tell faults apart. */
  datatype Fault = Fault(description: string)

  /** What one awaited backend call produces: it returns a Result or it throws. */
  datatype BackendReply = Returned(result: ChatResult) | Threw(fault: Fault)

  /** What the proxy gives its caller: a string, or the exception it rethrows. */
  datatype ProxyOutcome = Text(text: string) | Raised(fault: Fault)

  /** The fixed text returned in place of a failed backend Result. */
  const BackendErrorText: string := "Error al obtener respuesta del asistente."

  /**
   * Calls the backend once with `message` and maps its reply: a success gives its
   * value, a failure gives the fixed error text (no exception), an exception is
   * propagated as is.
   */
  function SendMessageAsync(chatAsync: string -> BackendReply, message: string): (r: ProxyOutcome)
    ensures chatAsync(message).Returned? && chatAsync(message).result.Success? ==>
              r == Text(chatAsync(message).result.value)
    ensures chatAsync(message).Returned? && chatAsync(message).result.Failure? ==>
              r == Text(BackendErrorText)
    ensures chatAsync(message).Threw? ==> r == Raised(chatAsync(message).fault)
  {
    match chatAsync(message)
    case Returned(Success(value)) => Text(value)
    case Returned(Failure(_)) => Text(BackendErrorText)
    case Threw(fault) => Raised(fault)
  }

  /** The proxy raises exactly when the backend call threw; a failed Result never raises. */
  lemma RaisesOnlyOnThrow(chatAsync: string -> BackendReply, message: string)
    ensures SendMessageAsync(chatAsync, message).Raised? <==> chatAsync(message).Threw?
  {
  }

  /**
   * Only the backend's answer to this very message matters: the message is passed
   * through unchanged and no other call is made.
   */
  lemma DependsOnlyOnThisCall(a: string -> BackendReply, b: string -> BackendReply, message: string)
    requires a(message) == b(message)
    ensures SendMessageAsync(a, message) == SendMessageAsync(b, message)
  {
  }

  /**
   * A semantic backend failure cannot be told apart, by the caller, from a
   * successful reply whose text happens to be the fixed error text.
   */
  lemma FailureLooksLikeReply(a: string -> BackendReply, b: string -> BackendReply, message: string)
    requires a(message).Returned? && a(message).result.Failure?
    requires b(message) == Returned(Success(BackendErrorText))
    ensures SendMessageAsync(a, message) == SendMessageAsync(b, message)
  {
  }
}
