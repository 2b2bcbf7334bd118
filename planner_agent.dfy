/**
 * The planner agent (app/agents/planner_agent.py): builds the fixed
 * three-task plan for a workflow, pre-checks a request, and produces the
 * step list of a planning task. Task ids are supplied in place of `uuid4()`.
 */
module Planner {
  import opened Values
  import opened WorkflowModels
  import opened MessageModels
  import opened Memory
  import opened Agents

  /** The ids the three planned tasks get. */
  datatype PlanIds = PlanIds(pre: string, exec: string, post: string)

  const Operations: seq<string> := ["create", "update", "delete", "query"]

  /** The task definition dictionary the planner emits for a task. */
  function EncodeTask(t: Task): Dict {
    map[
      "task_id" := Str(t.taskId),
      "description" := Str(t.description),
      "agent_type" := Str(t.agentType.ToString()),
      "status" := Str(t.status.ToString()),
      "priority" := Num(t.priority as real),
      "parameters" := Object(t.parameters)
    ]
  }

  /** The task definitions the planner emits for a list of tasks, in order. */
  function EncodeTasks(tasks: seq<Task>): (defs: seq<Value>)
    ensures |defs| == |tasks|
  {
    seq(|tasks|, i requires 0 <= i < |tasks| => Object(EncodeTask(tasks[i])))
  }

  /** The parameters of a validation task. */
  function ValidationParameters(operation: Value, validationType: string): Dict {
    map["operation" := operation, "validation_type" := Str(validationType)]
  }

  /**
   * The three tasks of every plan: pre-execution validation, the operation
   * itself, post-execution validation. The executor task's parameters are the
   * operation overlaid by the caller's parameters.
   */
  function PlannedTasks(operation: Value, parameters: Dict, ids: PlanIds): (tasks: seq<Task>)
    ensures |tasks| == 3
    ensures tasks[0].agentType == Validator && tasks[1].agentType == Executor && tasks[2].agentType == Validator
    ensures tasks[0].priority == 1 && tasks[1].priority == 2 && tasks[2].priority == 3
    ensures forall i :: 0 <= i < 3 ==> tasks[i].status == TaskPending && tasks[i].result == None && tasks[i].error == None
    ensures tasks[0].parameters == ValidationParameters(operation, "pre_execution")
    ensures tasks[2].parameters == ValidationParameters(operation, "post_execution")
    ensures tasks[1].parameters.Keys == {"operation"} + parameters.Keys
    ensures forall k :: k in parameters ==> tasks[1].parameters[k] == parameters[k]
    ensures "operation" !in parameters ==> tasks[1].parameters["operation"] == operation
    ensures tasks[0].taskId == ids.pre && tasks[1].taskId == ids.exec && tasks[2].taskId == ids.post
  {
    var op := ToText(operation);
    [ Task(ids.pre, "Validate " + op + " request", Validator, TaskPending, 1,
           ValidationParameters(operation, "pre_execution"), None, None),
      Task(ids.exec, "Execute " + op + " operation", Executor, TaskPending, 2,
           Merge(map["operation" := operation], parameters), None, None),
      Task(ids.post, "Validate " + op + " result", Validator, TaskPending, 3,
           ValidationParameters(operation, "post_execution"), None, None) ]
  }

  /** The error of `{**parameters}` on a value that is not a dict. */
  function NotAMappingError(v: Value): string {
    "'" + TypeName(v) + "' object is not a mapping"
  }

  /**
   * `plan_workflow`: the task definitions, five seconds per task as the
   * estimated duration, and the complexity. Spreading parameters that are
   * not a dict raises.
   */
  function PlanWorkflow(payload: Dict, ids: PlanIds): (r: Result<Dict>)
    ensures var parameters := GetOr(payload, "parameters", Object(map[]));
            r.Ok? <==> parameters.Object?
    ensures r.Ok? ==>
            var tasks := PlannedTasks(Get(payload, "operation"), GetOr(payload, "parameters", Object(map[])).fields, ids);
            "tasks" in r.value && r.value["tasks"] == Array(EncodeTasks(tasks))
    ensures r.Ok? ==> "estimated_duration" in r.value && r.value["estimated_duration"] == Num(15.0)
    ensures r.Ok? ==> r.value.Keys == {"tasks", "estimated_duration", "complexity"} && r.value["complexity"] == Str("medium")
  {
    var operation := Get(payload, "operation");
    var parameters := GetOr(payload, "parameters", Object(map[]));
    if !parameters.Object? then Err(NotAMappingError(parameters))
    else
      var tasks := PlannedTasks(operation, parameters.fields, ids);
      Ok(map[
        "tasks" := Array(EncodeTasks(tasks)),
        "estimated_duration" := Num((|tasks| * 5) as real),
        "complexity" := Str("medium")
      ])
  }

  const UpdateNeedsParameters := "Update operation requires parameters"
  const NeedsCustomerId := "Customer ID required for this operation"

  /**
   * `validate_request`: an update needs parameters, an update or delete needs
   * a target customer id; the errors accumulate and the request is valid
   * exactly when there is none.
   */
  function ValidateRequest(payload: Dict): (r: ValidationResult)
    ensures r.valid <==> r.errors == []
    ensures r.warnings == []
    ensures var operation := Get(payload, "operation");
            Str(UpdateNeedsParameters) in r.errors <==>
              operation == Str("update") && !Truthy(GetOr(payload, "parameters", Object(map[])))
    ensures var operation := Get(payload, "operation");
            Str(NeedsCustomerId) in r.errors <==>
              (operation == Str("update") || operation == Str("delete")) && !Truthy(Get(payload, "target_customer_id"))
    ensures forall e :: e in r.errors ==> e == Str(UpdateNeedsParameters) || e == Str(NeedsCustomerId)
  {
    var operation := Get(payload, "operation");
    var parameters := GetOr(payload, "parameters", Object(map[]));
    var e1 := if operation == Str("update") && !Truthy(parameters) then [UpdateNeedsParameters] else [];
    var e2 := if (operation == Str("update") || operation == Str("delete")) && !Truthy(Get(payload, "target_customer_id"))
              then [NeedsCustomerId] else [];
    assert |UpdateNeedsParameters| != |NeedsCustomerId|;
    Validation(e1 + e2)
  }

  /** One step of a step list: `{"step", "action", "description"}`. */
  function Step(n: int, action: string, description: string): Dict {
    map["step" := Num(n as real), "action" := Str(action), "description" := Str(description)]
  }

  /** `_plan_create_customer`, `_plan_update_customer`, `_plan_delete_customer`, `_plan_query_customer`. */
  function PlanSteps(operation: string): (steps: seq<Dict>)
    requires operation in Operations
    ensures |steps| == 3
    ensures forall i :: 0 <= i < 3 ==> "step" in steps[i] && steps[i]["step"] == Num((i + 1) as real)
  {
    match operation
    case "create" =>
      [ Step(1, "validate_customer_data", "Validate customer information"),
        Step(2, "check_duplicate", "Check for duplicate customer"),
        Step(3, "insert_customer", "Insert new customer record") ]
    case "update" =>
      [ Step(1, "fetch_current_data", "Retrieve current customer data"),
        Step(2, "validate_updates", "Validate update parameters"),
        Step(3, "apply_updates", "Apply updates to customer record") ]
    case "delete" =>
      [ Step(1, "verify_customer_exists", "Verify customer exists"),
        Step(2, "check_dependencies", "Check for dependent records"),
        Step(3, "delete_customer", "Delete customer record") ]
    case _ =>
      [ Step(1, "build_query", "Build database query"),
        Step(2, "execute_query", "Execute query and retrieve data"),
        Step(3, "format_results", "Format and return results") ]
  }

  /**
   * The outcome of `execute_task`: the step list for one of the four
   * operations, or an error for any other operation.
   */
  function TaskOutcome(task: Dict): (r: Result<Dict>)
    ensures var parameters := GetOr(task, "parameters", Object(map[]));
            r.Ok? <==> parameters.Object? && exists op :: op in Operations && Get(parameters.fields, "operation") == Str(op)
    ensures r.Ok? ==> "status" in r.value && r.value["status"] == Str("success")
    ensures r.Ok? ==> "plan" in r.value && r.value["plan"].Array? && |r.value["plan"].items| == 3
    ensures r.Ok? ==>
              var operation := Get(GetOr(task, "parameters", Object(map[])).fields, "operation").s;
              r.value["plan"] == Array(seq(3, i requires 0 <= i < 3 => Object(PlanSteps(operation)[i]))) &&
              "message" in r.value && r.value["message"] == Str("Generated plan for " + operation + " operation")
    ensures r.Ok? ==> r.value.Keys == {"status", "plan", "message"}
  {
    var parameters := GetOr(task, "parameters", Object(map[]));
    if !parameters.Object? then Err(NoGetError(parameters))
    else
      var operation := Get(parameters.fields, "operation");
      if operation.Str? && operation.s in Operations then
        var steps := PlanSteps(operation.s);
        Ok(map[
          "status" := Str("success"),
          "plan" := Array(seq(3, i requires 0 <= i < 3 => Object(steps[i]))),
          "message" := Str("Generated plan for " + operation.s + " operation")
        ])
      else Err("Unknown operation: " + ToText(operation))
  }

  /**
   * `process_message`: "plan_workflow" and "validate_request" are handled,
   * any other action is answered with an error; every answer echoes the
   * message id.
   */
  function ProcessMessage(message: AgentMessage, ids: PlanIds): (r: MessageResponse)
    ensures r.messageId == message.messageId
    ensures message.action == "validate_request" ==> r.success && r.result == Some(ValidateRequest(message.payload).ToDict())
    ensures message.action == "plan_workflow" ==>
              var plan := PlanWorkflow(message.payload, ids);
              (r.success <==> plan.Ok?) && (plan.Ok? ==> r.result == Some(plan.value) && r.error == None) &&
              (plan.Err? ==> r.result == None && r.error == Some(plan.error))
    ensures message.action != "plan_workflow" && message.action != "validate_request" ==>
              !r.success && r.error == Some("Unknown action: " + message.action)
  {
    var outcome :=
      if message.action == "plan_workflow" then PlanWorkflow(message.payload, ids)
      else if message.action == "validate_request" then Ok(ValidateRequest(message.payload).ToDict())
      else Err("Unknown action: " + message.action);
    Answer(message, outcome)
  }

  class PlannerAgent {
    const agent: BaseAgent

    constructor (contextStore: ContextStore, agentId: Option<string>, uuidHex: string)
      ensures fresh(agent) && agent.agentType == Planner && agent.status == Idle && agent.messageHistory == []
      ensures agent.agentId == AgentIdFor(Planner, agentId, uuidHex)
    {
      agent := new BaseAgent(Planner, contextStore, agentId, uuidHex);
    }

    /** `execute_task`: busy while planning, idle again on both exit paths. */
    method ExecuteTask(task: Dict) returns (r: Result<Dict>)
      modifies agent`status
      ensures r == TaskOutcome(task)
      ensures agent.status == Idle
    {
      agent.status := Busy;
      r := TaskOutcome(task);
      agent.status := Idle;
    }
  }
}
