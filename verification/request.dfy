/**
 The side-effect-free front of the chat handler: the checks that run, in
 order, before any admission slot or session lock is touched.
 */
module Checks {
  import opened Http
  import Auth
  import ConversationId

  /** What a request that passed every check carries into admission. */
  datatype Ticket = Ticket(message: string, conversationId: string, sessionKey: string)

  /** The checks of the chat handler, in order: method, bearer token, body
      decoding, non-empty message, conversation identifier. */
  function Classify(apiKey: string, req: Request): (r: Result<Ticket, Failure>)
    ensures req.verb != MethodPost ==> r == Err(MethodNotAllowed)
    ensures req.verb == MethodPost && !Auth.Authorized(apiKey, req.authorization) ==> r == Err(Unauthorized)
    ensures req.verb == MethodPost && Auth.Authorized(apiKey, req.authorization) ==>
              match req.body
              case None => r == Err(InvalidBody)
              case Some(b) =>
                if b.message == "" then r == Err(MessageRequired)
                else if ConversationId.Resolve(b.conversationId).None? then r == Err(InvalidConversationId)
                else r.Ok?
    ensures r.Err? ==> FailureStatus(r.error) in {400, 401, 405}
    ensures r.Err? ==> (FailureStatus(r.error) == 405 <==> req.verb != MethodPost)
    ensures r.Err? ==>
              (FailureStatus(r.error) == 401 <==> req.verb == MethodPost && !Auth.Authorized(apiKey, req.authorization))
    ensures r.Ok? ==>
              && req.body.Some?
              && r.value.message == req.body.value.message != ""
              && ConversationId.Valid(r.value.conversationId)
              && (req.body.value.conversationId == "" ==> r.value.conversationId == ConversationId.DefaultId)
              && (req.body.value.conversationId != "" ==> r.value.conversationId == req.body.value.conversationId)
              && r.value.sessionKey == ConversationId.SessionKey(r.value.conversationId)
  {
    if req.verb != MethodPost then Err(MethodNotAllowed)
    else if !Auth.Authorized(apiKey, req.authorization) then Err(Unauthorized)
    else match req.body
      case None => Err(InvalidBody)
      case Some(b) =>
        if b.message == "" then Err(MessageRequired)
        else match ConversationId.Resolve(b.conversationId)
          case None => Err(InvalidConversationId)
          case Some(id) => Ok(Ticket(b.message, id, ConversationId.SessionKey(id)))
  }

  /** Whether a failure is one the checks themselves produce (as opposed to
      admission or the backend). */
  predicate IsValidationFailure(f: Failure)
  {
    f.MethodNotAllowed? || f.Unauthorized? || f.InvalidBody? || f.MessageRequired? || f.InvalidConversationId?
  }

  /** The checks never answer "server busy" or "internal server error". */
  lemma ClassifyFailures(apiKey: string, req: Request)
    ensures Classify(apiKey, req).Err? ==> IsValidationFailure(Classify(apiKey, req).error)
  {
  }

  /** The bearer token is decided before the body is decoded: a request the
      gate refuses gets the same answer whatever its body is. */
  lemma AuthBeforeBody(apiKey: string, req: Request, body: Option<ChatRequest>)
    requires !Auth.Authorized(apiKey, req.authorization)
    ensures Classify(apiKey, req) == Classify(apiKey, req.(body := body))
    ensures Classify(apiKey, req).Err?
  {
  }

  /** A request is accepted iff it is a POST, passes the gate, has a decodable
      body with a non-empty message, and carries no identifier or a valid one. */
  lemma AcceptedIff(apiKey: string, req: Request)
    ensures Classify(apiKey, req).Ok? <==>
              && req.verb == MethodPost
              && (apiKey == "" || req.authorization == Auth.Scheme + apiKey)
              && req.body.Some?
              && req.body.value.message != ""
              && (req.body.value.conversationId == "" || ConversationId.Valid(req.body.value.conversationId))
  {
    if req.body.Some? {
      ConversationId.ValidIff(req.body.value.conversationId);
    }
  }

  /** Two accepted requests contend for the same session lock iff they
      resolved to the same conversation; all requests without an identifier
      share the "default" session. */
  lemma SharedSessionIff(apiKey: string, a: Request, b: Request)
    requires Classify(apiKey, a).Ok? && Classify(apiKey, b).Ok?
    ensures Classify(apiKey, a).value.sessionKey == Classify(apiKey, b).value.sessionKey <==>
              Classify(apiKey, a).value.conversationId == Classify(apiKey, b).value.conversationId
    ensures a.body.value.conversationId == "" && b.body.value.conversationId == "" ==>
              Classify(apiKey, a).value.sessionKey == Classify(apiKey, b).value.sessionKey
  {
    ConversationId.SessionKeyInjective(Classify(apiKey, a).value.conversationId, Classify(apiKey, b).value.conversationId);
  }
}
