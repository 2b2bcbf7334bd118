/**
 * The workflow and task records (app/models/workflow.py): status enums, the
 * Task and WorkflowState records with their defaults and the pydantic field
 * bounds, and the request/response shapes of the orchestration engine.
 * Timestamps are not part of the model.
 */
module WorkflowModels {
  import opened Values

  datatype WorkflowStatus = Pending | Running | Completed | Failed | Cancelled
  {
    function ToString(): string {
      match this
      case Pending => "pending"
      case Running => "running"
      case Completed => "completed"
      case Failed => "failed"
      case Cancelled => "cancelled"
    }
  }

  datatype AgentType = Planner | Executor | Validator
  {
    function ToString(): string {
      match this
      case Planner => "planner"
      case Executor => "executor"
      case Validator => "validator"
    }
  }

  datatype TaskStatus = TaskPending | InProgress | TaskCompleted | TaskFailed
  {
    function ToString(): string {
      match this
      case TaskPending => "pending"
      case InProgress => "in_progress"
      case TaskCompleted => "completed"
      case TaskFailed => "failed"
    }
  }

  /** `WorkflowStatus(s)`: the enum member whose value is `s`, if any. */
  function ParseWorkflowStatus(s: string): (r: Option<WorkflowStatus>)
    ensures r.Some? ==> r.value.ToString() == s
  {
    if s == "pending" then Some(Pending)
    else if s == "running" then Some(Running)
    else if s == "completed" then Some(Completed)
    else if s == "failed" then Some(Failed)
    else if s == "cancelled" then Some(Cancelled)
    else None
  }

  /** `AgentType(s)`: the enum member whose value is `s`; other strings raise. */
  function ParseAgentType(s: string): (r: Option<AgentType>)
    ensures r.Some? ==> r.value.ToString() == s
  {
    if s == "planner" then Some(Planner)
    else if s == "executor" then Some(Executor)
    else if s == "validator" then Some(Validator)
    else None
  }

  /** Every workflow status is recovered from its value, and exactly five strings are values. */
  lemma WorkflowStatusValues(st: WorkflowStatus, s: string)
    ensures ParseWorkflowStatus(st.ToString()) == Some(st)
    ensures ParseWorkflowStatus(s).Some? <==> s in {"pending", "running", "completed", "failed", "cancelled"}
  {
  }

  /** Every agent type is recovered from its value, and exactly three strings are values. */
  lemma AgentTypeValues(t: AgentType, s: string)
    ensures ParseAgentType(t.ToString()) == Some(t)
    ensures ParseAgentType(s).Some? <==> s in {"planner", "executor", "validator"}
  {
  }

  /** `Field(default=1, ge=1, le=10)` */
  type Priority = p: int | 1 <= p <= 10 witness 1

  const DefaultPriority: Priority := 1

  datatype Task = Task(
    taskId: string,
    description: string,
    agentType: AgentType,
    status: TaskStatus,
    priority: Priority,
    parameters: Dict,
    result: Option<Dict>,
    error: Option<string>)

  /** A Task built from the required fields only, with every other field at its default. */
  function NewTask(taskId: string, description: string, agentType: AgentType): (t: Task)
    ensures t.status == TaskPending && t.priority == 1
    ensures t.parameters == map[] && t.result == None && t.error == None
    ensures t.taskId == taskId && t.description == description && t.agentType == agentType
  {
    Task(taskId, description, agentType, TaskPending, DefaultPriority, map[], None, None)
  }

  /**
   * Pydantic's validation of `Task(priority=v, ...)` where `v` arrives as a
   * dynamic value: a whole number in 1..10 is accepted, anything else raises.
   */
  function CheckPriority(v: Value): (r: Result<Priority>)
    ensures r.Ok? <==> v.Num? && v.n == v.n.Floor as real && 1 <= v.n.Floor <= 10
    ensures r.Ok? ==> r.value as real == v.n
  {
    if v.Num? && v.n == v.n.Floor as real && 1 <= v.n.Floor <= 10 then Ok(v.n.Floor as Priority)
    else Err("1 validation error for Task\npriority")
  }

  datatype WorkflowState = WorkflowState(
    workflowId: string,
    name: string,
    description: Option<string>,
    status: WorkflowStatus,
    tasks: seq<Task>,
    currentTaskIndex: int,
    context: Dict,
    error: Option<string>)

  /** A WorkflowState built from the fields the engine passes, with every other field at its default. */
  function NewWorkflowState(workflowId: string, name: string, description: Option<string>, context: Dict): (w: WorkflowState)
    ensures w.status == Pending && w.tasks == [] && w.currentTaskIndex == 0 && w.error == None
    ensures w.workflowId == workflowId && w.name == name && w.description == description && w.context == context
  {
    WorkflowState(workflowId, name, description, Pending, [], 0, context, None)
  }

  datatype WorkflowRequest = WorkflowRequest(
    name: string,
    description: Option<string>,
    operation: string,
    targetCustomerId: Option<string>,
    parameters: Dict)

  /** A request with only the required fields: no description, no target, empty parameters. */
  function NewWorkflowRequest(name: string, operation: string): (r: WorkflowRequest)
    ensures r.parameters == map[] && r.targetCustomerId == None && r.description == None
    ensures r.name == name && r.operation == operation
  {
    WorkflowRequest(name, None, operation, None, map[])
  }

  /**
   * The response of `create_workflow` and `get_workflow_status`. The source
   * declares `workflow_id: str`; the model declares it optional, because the
   * capacity rejection builds a response without an id.
   */
  datatype WorkflowResponse = WorkflowResponse(
    workflowId: Option<string>,
    status: WorkflowStatus,
    message: string,
    currentTask: Option<Task>,
    progress: real)

  /** The bound `Field(ge=0, le=100)` on `progress`. */
  predicate WellFormedResponse(r: WorkflowResponse) {
    0.0 <= r.progress <= 100.0
  }

  /** What pydantic accepts for the response as the source declares it: also a string `workflow_id`. */
  predicate AcceptedAsDeclared(r: WorkflowResponse) {
    WellFormedResponse(r) && r.workflowId.Some?
  }
}
