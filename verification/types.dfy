/** Values shared by the client and the streaming subscriber: optional values,
    results, Java's nullable strings, chat messages, responses and the errors
    the client raises. */
module Types {

  /** A value that may be absent; `None` also stands for a Java `null`. */
  datatype Option<+T> = None | Some(value: T)

  /** The result of an operation that either returns a value or raises an error. */
  datatype Result<+T, +E> = Ok(value: T) | Err(error: E)

  /** The result of an operation that either completes normally or raises an error. */
  datatype Outcome<+E> = Pass | Fail(error: E)

  /** A Java `String` reference: `None` is `null`. */
  type JavaString = Option<string>

  /** The speaker of one turn of a conversation. */
  datatype Role = User | Assistant

  /** One turn of a conversation. The content is a Java string and may be null
      when the service returned a response without a result. */
  datatype Message = Message(role: Role, content: JavaString)

  /** One response (or one partial response of a stream) from the service;
      only its `result` text is inspected, everything else is carried along. */
  datatype Response = Response(result: JavaString)

  /** The error code of every `BusinessException` the modelled calls can raise. */
  datatype ErrorCode = ParamsError

  /** An exception raised by the client: a `BusinessException` with its code and,
      when one was given, its explicit message; or the `NullPointerException`
      that unboxing a null `Float` raises. */
  datatype Error = Business(code: ErrorCode, detail: Option<string>) | NullPointer

  /** An upstream failure signalled to a subscriber; it is only passed on. */
  datatype Throwable = Throwable(description: string)

  /** How a single-reply `Mono` ends: it emits one response, completes without
      emitting any, or signals an error. Reactor never emits `null`. */
  datatype MonoOutcome = Emitted(response: Response) | Empty | Errored(cause: Throwable)

  /** The user turn built from a request's content. */
  function UserMessage(content: JavaString): Message
  {
    Message(User, content)
  }

  /** The assistant turn built from a reply text. */
  function AssistantMessage(content: JavaString): Message
  {
    Message(Assistant, content)
  }
}
