/**
 * The state every agent shares (app/agents/base_agent.py): its id and type,
 * the `idle`/`busy` status flag, the history of messages it created and a
 * reference to the shared context store. The three agent kinds hold one of
 * these rather than inheriting from it.
 */
module Agents {
  import opened Values
  import opened WorkflowModels
  import opened MessageModels
  import opened Memory

  datatype AgentStatus = Idle | Busy

  /** `agent_id or f"{agent_type.value}_{uuid4().hex[:8]}"`, with the uuid's hex digits supplied. */
  function AgentIdFor(agentType: AgentType, agentId: Option<string>, uuidHex: string): string {
    if agentId.Some? && agentId.value != "" then agentId.value
    else agentType.ToString() + "_" + uuidHex[..if |uuidHex| < 8 then |uuidHex| else 8]
  }

  /**
   * A given non-empty id is kept; otherwise the id is the type's value, an
   * underscore and the first eight hex digits of the uuid.
   */
  lemma AgentIdShape(agentType: AgentType, agentId: Option<string>, uuidHex: string)
    requires |uuidHex| >= 8
    ensures agentId.Some? && agentId.value != "" ==> AgentIdFor(agentType, agentId, uuidHex) == agentId.value
    ensures !(agentId.Some? && agentId.value != "") ==>
      var id := AgentIdFor(agentType, agentId, uuidHex);
      var prefix := agentType.ToString() + "_";
      |id| == |prefix| + 8 && id[..|prefix|] == prefix && id[|prefix|..] == uuidHex[..8]
  {
  }

  /**
   * `payload.get("target_customer_id") or payload.get("customer_id")`: how
   * the validator and the executor find the customer a request is about.
   */
  function TargetOf(payload: Dict): Value {
    Or(Get(payload, "target_customer_id"), Get(payload, "customer_id"))
  }

  /**
   * The `{"valid", "errors", "warnings"}` dictionary that the planner's and
   * the validator's checks return.
   */
  datatype ValidationResult = ValidationResult(valid: bool, errors: seq<Value>, warnings: seq<Value>)
  {
    function ToDict(): Dict {
      map["valid" := Bool(valid), "errors" := Array(errors), "warnings" := Array(warnings)]
    }
  }

  /** Errors appended one by one; the result is valid exactly when none was appended. */
  function Validation(errors: seq<string>): (r: ValidationResult)
    ensures r.valid <==> errors == []
    ensures r.errors == Strings(errors).items && r.warnings == []
    ensures forall e :: e in r.errors <==> e.Str? && e.s in errors
  {
    ValidationResult(errors == [], Strings(errors).items, [])
  }

  /** The snapshot `create_message` attaches: the stored log, and the stored metadata overridden by the argument. */
  function Snapshot(stored: Entry, metadata: Option<Dict>): (c: ContextData)
    ensures c.previousActions == stored.previousActions
    ensures c.metadata.Keys == stored.metadata.Keys + MetadataOf(metadata).Keys
    ensures forall k :: k in MetadataOf(metadata) ==> c.metadata[k] == MetadataOf(metadata)[k]
    ensures forall k :: k in stored.metadata && k !in MetadataOf(metadata) ==> c.metadata[k] == stored.metadata[k]
  {
    ContextData(stored.previousActions, Merge(stored.metadata, MetadataOf(metadata)))
  }

  /**
   * The snapshot is taken before the store is updated: the stored log after
   * the call is the snapshot's log followed by the new action, and the stored
   * metadata after the call equals the snapshot's metadata.
   */
  lemma SnapshotPrecedesUpdate(stored: Entry, action: string, metadata: Option<Dict>)
    requires action != ""
    ensures Updated(stored, Some(action), metadata).previousActions == Snapshot(stored, metadata).previousActions + [action]
    ensures Updated(stored, Some(action), metadata).metadata == Snapshot(stored, metadata).metadata
  {
  }

  class BaseAgent {
    const agentId: string
    const agentType: AgentType
    var status: AgentStatus
    var messageHistory: seq<AgentMessage>
    const contextStore: ContextStore

    constructor (agentType: AgentType, contextStore: ContextStore, agentId: Option<string>, uuidHex: string)
      ensures this.agentId == AgentIdFor(agentType, agentId, uuidHex)
      ensures this.agentType == agentType && this.contextStore == contextStore
      ensures status == Idle && messageHistory == []
    {
      this.agentId := AgentIdFor(agentType, agentId, uuidHex);
      this.agentType := agentType;
      this.status := Idle;
      this.messageHistory := [];
      this.contextStore := contextStore;
    }

    /**
     * `create_message`: a message stamped with the workflow's context as it
     * was before the call; the action is then recorded in the store and the
     * message appended to the history.
     */
    method CreateMessage(messageId: string, messageType: MessageType, receiverId: Option<string>,
                         receiverType: Option<string>, workflowId: string, action: string, payload: Dict,
                         taskId: Option<string>, inReplyTo: Option<string>, metadata: Option<Dict>)
      returns (m: AgentMessage)
      modifies this`messageHistory, contextStore
      ensures m.context == Some(Snapshot(old(contextStore.GetContext(workflowId)), metadata))
      ensures m.senderId == agentId && m.senderType == agentType.ToString()
      ensures m.metadata == MetadataOf(metadata)
      ensures m.messageId == messageId && m.messageType == messageType && m.priority == Medium
      ensures m.receiverId == receiverId && m.receiverType == receiverType && m.workflowId == workflowId
      ensures m.taskId == taskId && m.action == action && m.payload == payload && m.inReplyTo == inReplyTo
      ensures m.status == "pending" && m.error == None
      ensures contextStore.store ==
              old(contextStore.store)[workflowId := Updated(old(contextStore.GetContext(workflowId)), Some(action), metadata)]
      ensures messageHistory == old(messageHistory) + [m]
    {
      var stored := contextStore.GetContext(workflowId);
      var context := Snapshot(stored, metadata);
      m := AgentMessage(messageId, messageType, Medium, agentId, agentType.ToString(), receiverId, receiverType,
                        workflowId, taskId, action, payload, Some(context), inReplyTo, "pending", None,
                        MetadataOf(metadata));
      contextStore.UpdateContext(workflowId, Some(action), metadata);
      messageHistory := messageHistory + [m];
    }
  }
}
