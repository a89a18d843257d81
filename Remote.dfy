/**
 * The remote AI API as the run-tracking core sees it.
 *
 * The client library is not modelled: each of its calls is a total function in an
 * `Api` value, which fixes what the remote side answers to every request during one
 * operation of the core. A call that throws in the client (transport, authentication,
 * unknown id, ...) answers `Err`. Operations of the core also return the list of
 * `Call`s they issued, in order, so that "no remote call is made" can be stated.
 */
module Remote {

  /** A Java reference that may be null: `None` is null. */
  datatype Option<T> = None | Some(value: T)

  /** The outcome of an operation that may throw. */
  datatype Result<T, E> = Ok(value: T) | Err(error: E)

  /** Any exception raised by the API client. */
  datatype RemoteError = RemoteError(message: string)

  /** The parts of the client's response objects that the core reads. */
  datatype Assistant = Assistant(id: string)
  datatype Thread = Thread(id: string)
  datatype Run = Run(id: string, status: Option<string>)

  /** One content element of a message; `text` is null for non-text content. */
  datatype MessageContent = MessageContent(text: Option<string>)
  datatype Message = Message(role: Option<string>, content: seq<MessageContent>)

  /** The paged list response of `listMessages`; `data` is in the order the API returns. */
  datatype MessageList = MessageList(data: seq<Message>)

  /** What the remote side answers to each request. Thread and run ids taken from a
      record may be null, so those parameters are `Option<string>`. */
  datatype Api = Api(
    retrieveAssistant: string -> Result<Assistant, RemoteError>,
    createThread: Result<Thread, RemoteError>,
    createMessage: (Option<string>, string) -> Result<Message, RemoteError>,
    createRun: (string, string) -> Result<Run, RemoteError>,
    retrieveRun: (Option<string>, Option<string>) -> Result<Run, RemoteError>,
    listMessages: Option<string> -> Result<MessageList, RemoteError>)

  /** A request issued to the remote side, with its arguments. */
  datatype Call =
    | RetrieveAssistant(assistantId: string)
    | CreateThread
    | CreateMessage(threadId: Option<string>, content: string)
    | CreateRun(onThread: string, assistantId: string)
    | RetrieveRun(threadId: Option<string>, runId: Option<string>)
    | ListMessages(threadId: Option<string>)
}
