/**
 * models/message.py, models/chat_history.py and models/file_context.py as
 * plain values, with the request validation the `Message.role` field
 * pattern performs, and the `x or fresh_id` session-id rule the routes share.
 */
module Models {
  import opened Wrappers

  /** `Message`: one chat turn as the client sends it and `/history` returns it. */
  datatype Message = Message(role: string, content: string)

  /** `ChatRequest`: `session_id` is optional and defaults to `None`. */
  datatype ChatRequest = ChatRequest(sessionId: Option<string>, messages: seq<Message>)

  /** A `ChatHistory` row; the auto-increment id is modelled by the row's place in the log. */
  datatype ChatRecord = ChatRecord(sessionId: string, role: string, content: string)

  /** A `FileContext` row; the id and the `created_at` timestamp are not modelled. */
  datatype FileContext = FileContext(sessionId: string, filename: string, content: string)

  /** The pattern `^(user|assistant|system)$`: the whole value must be one
      of the three literals, compared case-sensitively. */
  predicate ValidRole(role: string)
  {
    role == "user" || role == "assistant" || role == "system"
  }

  /** `content` is a plain `str` field: only the role is constrained. */
  predicate ValidMessage(m: Message)
  {
    ValidRole(m.role)
  }

  predicate ValidRequest(req: ChatRequest)
  {
    forall i :: 0 <= i < |req.messages| ==> ValidMessage(req.messages[i])
  }

  /** The position of the first message whose role fails the pattern, if any. */
  function FirstInvalid(ms: seq<Message>): (r: Option<nat>)
    ensures r.None? <==> forall i :: 0 <= i < |ms| ==> ValidMessage(ms[i])
    ensures r.Some? ==> r.value < |ms| && !ValidMessage(ms[r.value])
                        && forall i :: 0 <= i < r.value ==> ValidMessage(ms[i])
  {
    if ms == [] then None
    else if !ValidMessage(ms[0]) then Some(0)
    else match FirstInvalid(ms[1..])
      case None => None
      case Some(k) => Some(k + 1)
  }

  /** Request validation: the request itself, or the index of the first
      message the pattern rejects (the framework then answers 422). */
  function Validate(req: ChatRequest): (r: Result<ChatRequest, nat>)
    ensures r.Ok? <==> ValidRequest(req)
    ensures r.Ok? ==> r.value == req
    ensures r.Err? ==> r.error < |req.messages| && !ValidMessage(req.messages[r.error])
  {
    match FirstInvalid(req.messages)
    case None => Ok(req)
    case Some(i) => Err(i)
  }

  /** `session_id or str(uuid4())`: a supplied, non-empty id is used as is;
      `None` and the empty string are both falsy and get the fresh id. */
  function ResolveSessionId(supplied: Option<string>, freshId: string): (sid: string)
    ensures supplied.Some? && supplied.value != "" ==> sid == supplied.value
    ensures supplied.None? || supplied.value == "" ==> sid == freshId
  {
    match supplied
    case Some(s) => if s != "" then s else freshId
    case None => freshId
  }
}
