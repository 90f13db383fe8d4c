/**
 Shared vocabulary of the chat endpoint: the decoded request, the response
 the handler writes, and the failure codes it answers with.
 */
module Http {

  /** Some or None, used for the outcome of decoding a request body. */
  datatype Option<+T> = None | Some(value: T)

  /** Either a value or an error. */
  datatype Result<+T, +E> = Ok(value: T) | Err(error: E)

  /** The HTTP method the chat endpoint accepts. */
  const MethodPost: string := "POST"

  /** The JSON body of a chat request, after decoding.
      An omitted `conversation_id` decodes to the empty string. */
  datatype ChatRequest = ChatRequest(message: string, conversationId: string)

  /** An inbound request as the handler sees it. `verb` is the HTTP method; `authorization` is the value
      of the Authorization header, the empty string when the header is absent;
      `body` is None when the body could not be decoded (malformed JSON, or
      larger than the 1 MiB limit). */
  datatype Request = Request(verb: string, authorization: string, body: Option<ChatRequest>)

  /** Every way the handler can refuse a request. */
  datatype Failure =
    | MethodNotAllowed
    | Unauthorized
    | InvalidBody
    | MessageRequired
    | InvalidConversationId
    | ServerBusy
    | InternalError

  /** What the handler writes back: a fixed error body, or the chat answer. */
  datatype Response =
    | ErrorResponse(failure: Failure)
    | ChatResponse(response: string, conversationId: string)

  /** The HTTP status code of a failure. */
  function FailureStatus(f: Failure): int
  {
    match f
    case MethodNotAllowed => 405
    case Unauthorized => 401
    case InvalidBody => 400
    case MessageRequired => 400
    case InvalidConversationId => 400
    case ServerBusy => 503
    case InternalError => 500
  }

  /** The fixed body written with a failure. */
  function FailureBody(f: Failure): string
  {
    match f
    case MethodNotAllowed => "{\"error\":\"method not allowed\"}"
    case Unauthorized => "{\"error\":\"unauthorized\"}"
    case InvalidBody => "{\"error\":\"invalid request body\"}"
    case MessageRequired => "{\"error\":\"message is required\"}"
    case InvalidConversationId => "{\"error\":\"invalid conversation_id\"}"
    case ServerBusy => "{\"error\":\"server busy\"}"
    case InternalError => "{\"error\":\"internal server error\"}"
  }

  /** Each failure is answered with its own status and its own fixed body,
      and no two failures share a body, so the three kinds of 400 can be told
      apart by the caller. */
  lemma FailureResponses(f: Failure, g: Failure)
    ensures f.MethodNotAllowed? ==> FailureStatus(f) == 405 && FailureBody(f) == "{\"error\":\"method not allowed\"}"
    ensures f.Unauthorized? ==> FailureStatus(f) == 401 && FailureBody(f) == "{\"error\":\"unauthorized\"}"
    ensures f.InvalidBody? ==> FailureStatus(f) == 400 && FailureBody(f) == "{\"error\":\"invalid request body\"}"
    ensures f.MessageRequired? ==> FailureStatus(f) == 400 && FailureBody(f) == "{\"error\":\"message is required\"}"
    ensures f.InvalidConversationId? ==>
              FailureStatus(f) == 400 && FailureBody(f) == "{\"error\":\"invalid conversation_id\"}"
    ensures f.ServerBusy? ==> FailureStatus(f) == 503 && FailureBody(f) == "{\"error\":\"server busy\"}"
    ensures f.InternalError? ==> FailureStatus(f) == 500 && FailureBody(f) == "{\"error\":\"internal server error\"}"
    ensures FailureBody(f) == FailureBody(g) <==> f == g
  {
    if f != g {
      // The bodies differ in length or at the first character after `{"error":"`.
      var k := |"{\"error\":\""|;
      assert FailureBody(f)[k] != FailureBody(g)[k] || |FailureBody(f)| != |FailureBody(g)|;
    }
  }

  /** The HTTP status code of a response. */
  function Status(r: Response): int
  {
    match r
    case ErrorResponse(f) => FailureStatus(f)
    case ChatResponse(_, _) => 200
  }
}
