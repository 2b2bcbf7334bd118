/**
 * The agent communication envelope (app/models/message.py): the request
 * message every inter-agent call carries and the response that answers it.
 * Message timestamps are not part of the model; message ids are supplied by
 * the caller in place of `uuid4()`.
 */
module MessageModels {
  import opened Values

  datatype MessageType = Request | Response | Notification | Error | Acknowledgement
  {
    function ToString(): string {
      match this
      case Request => "request"
      case Response => "response"
      case Notification => "notification"
      case Error => "error"
      case Acknowledgement => "ack"
    }
  }

  datatype MessagePriority = Low | Medium | High | Critical
  {
    function ToString(): string {
      match this
      case Low => "low"
      case Medium => "medium"
      case High => "high"
      case Critical => "critical"
    }
  }

  /** `MessageType(s)` */
  function ParseMessageType(s: string): (r: Option<MessageType>)
    ensures r.Some? ==> r.value.ToString() == s
  {
    if s == "request" then Some(Request)
    else if s == "response" then Some(Response)
    else if s == "notification" then Some(Notification)
    else if s == "error" then Some(Error)
    else if s == "ack" then Some(Acknowledgement)
    else None
  }

  /** Every message type is recovered from its value, and exactly five strings are values. */
  lemma MessageTypeValues(t: MessageType, s: string)
    ensures ParseMessageType(t.ToString()) == Some(t)
    ensures ParseMessageType(s).Some? <==> s in {"request", "response", "notification", "error", "ack"}
  {
  }

  /** The snapshot of a workflow's context attached to a message. */
  datatype ContextData = ContextData(previousActions: seq<string>, metadata: Dict)

  datatype AgentMessage = AgentMessage(
    messageId: string,
    messageType: MessageType,
    priority: MessagePriority,
    senderId: string,
    senderType: string,
    receiverId: Option<string>,
    receiverType: Option<string>,
    workflowId: string,
    taskId: Option<string>,
    action: string,
    payload: Dict,
    context: Option<ContextData>,
    inReplyTo: Option<string>,
    status: string,
    error: Option<string>,
    metadata: Dict)
  {
    /** A message without a receiver is addressed to every agent. */
    predicate IsBroadcast() {
      receiverId.None?
    }
  }

  /** A message built from the required fields only, with every other field at its default. */
  function NewMessage(messageId: string, messageType: MessageType, senderId: string, senderType: string,
                      workflowId: string, action: string): (m: AgentMessage)
    ensures m.status == "pending" && m.priority == Medium
    ensures m.payload == map[] && m.metadata == map[] && m.context == None && m.error == None
    ensures m.IsBroadcast() && m.receiverType == None && m.taskId == None && m.inReplyTo == None
    ensures m.messageId == messageId && m.messageType == messageType && m.senderId == senderId
    ensures m.senderType == senderType && m.workflowId == workflowId && m.action == action
  {
    AgentMessage(messageId, messageType, Medium, senderId, senderType, None, None, workflowId, None,
                 action, map[], None, None, "pending", None, map[])
  }

  datatype MessageResponse = MessageResponse(
    success: bool,
    messageId: string,
    result: Option<Dict>,
    error: Option<string>)

  /** The answer to `message`: the outcome of its handler, echoing the message id. */
  function Answer(message: AgentMessage, outcome: Result<Dict>): (r: MessageResponse)
    ensures r.messageId == message.messageId
    ensures r.success <==> outcome.Ok?
    ensures outcome.Ok? ==> r.result == Some(outcome.value) && r.error == None
    ensures outcome.Err? ==> r.result == None && r.error == Some(outcome.error)
  {
    match outcome
    case Ok(v) => MessageResponse(true, message.messageId, Some(v), None)
    case Err(e) => MessageResponse(false, message.messageId, None, Some(e))
  }
}
