/**
 * The orchestration engine (app/orchestrator.py): the table of workflows,
 * the capacity check, planning a workflow into tasks, the strictly
 * sequential execution of those tasks by the three agents, and the status
 * projections. Workflow ids, message ids, task ids and the ids of created
 * customers are supplied in place of `uuid4()`; the background scheduling of
 * an execution is reported as a flag and the execution is a separate call.
 */
module Orchestrator {
  import opened Values
  import opened WorkflowModels
  import opened MessageModels
  import opened Memory
  import opened Agents
  import PA = Planner
  import VA = Validator
  import EA = Executor

  const MaxConcurrentWorkflows: nat := 5

  /** A workflow the capacity check counts: pending or running. */
  predicate Active(wf: WorkflowState) {
    wf.status == Pending || wf.status == Running
  }

  function ActiveIds(workflows: map<string, WorkflowState>): set<string> {
    set id | id in workflows && Active(workflows[id])
  }

  /** The number of pending or running workflows. */
  function CountActive(workflows: map<string, WorkflowState>): nat {
    |ActiveIds(workflows)|
  }

  /**
   * What the engine keeps true of every workflow: the status CANCELLED is
   * never assigned, and the cursor is 0 or the index of one of its tasks.
   */
  predicate WellFormedWorkflow(wf: WorkflowState) {
    wf.status != Cancelled && 0 <= wf.currentTaskIndex &&
    (wf.currentTaskIndex < |wf.tasks| || wf.currentTaskIndex == 0)
  }

  /** Every stored workflow is filed under its own id and well formed. */
  predicate ValidTable(workflows: map<string, WorkflowState>) {
    forall id :: id in workflows ==> workflows[id].workflowId == id && WellFormedWorkflow(workflows[id])
  }

  lemma ValidTableUpdate(workflows: map<string, WorkflowState>, id: string, wf: WorkflowState)
    requires ValidTable(workflows) && wf.workflowId == id && WellFormedWorkflow(wf)
    ensures ValidTable(workflows[id := wf])
  {
  }

  /** Storing twice under one id keeps the second. */
  lemma StoreTwice(workflows: map<string, WorkflowState>, id: string, first: WorkflowState, second: WorkflowState)
    ensures workflows[id := first][id := second] == workflows[id := second]
  {
  }

  // ---------------------------------------------------------------------------
  // creation

  /** The response to a request refused at capacity: failed, no progress, no workflow. */
  function Rejection(): (r: WorkflowResponse)
    ensures r.status == Failed && r.progress == 0.0 && r.workflowId == None && r.currentTask == None
    ensures WellFormedResponse(r)
  {
    WorkflowResponse(None, Failed, "Maximum concurrent workflows (" + NatText(MaxConcurrentWorkflows) + ") reached", None, 0.0)
  }

  /**
   * Building a response as the source declares it: pydantic refuses a
   * response without a string `workflow_id` or with progress outside 0..100.
   */
  function AsDeclared(r: WorkflowResponse): (checked: Result<WorkflowResponse>)
    ensures checked.Ok? <==> AcceptedAsDeclared(r)
  {
    if AcceptedAsDeclared(r) then Ok(r) else Err("1 validation error for WorkflowResponse")
  }

  /**
   * As written, the capacity rejection cannot be built: its `workflow_id` is
   * `None` where a string is declared, so `create_workflow` raises instead of
   * returning the failed response.
   */
  lemma RejectionRaisesAsWritten()
    ensures AsDeclared(Rejection()).Err?
  {
  }

  /** The context a new workflow starts with. */
  function RequestContext(request: WorkflowRequest): (context: Dict)
    ensures context.Keys == {"operation", "target_customer_id", "parameters"}
    ensures context["operation"] == Str(request.operation)
    ensures context["parameters"] == Object(request.parameters)
    ensures context["target_customer_id"] == if request.targetCustomerId.Some? then Str(request.targetCustomerId.value) else Null
  {
    map[
      "operation" := Str(request.operation),
      "target_customer_id" := if request.targetCustomerId.Some? then Str(request.targetCustomerId.value) else Null,
      "parameters" := Object(request.parameters)
    ]
  }

  /** The response to an accepted request: the workflow's id and status, its first task, no progress. */
  function Accepted(wf: WorkflowState): (r: WorkflowResponse)
    ensures AcceptedAsDeclared(r) && r.progress == 0.0
    ensures r.workflowId == Some(wf.workflowId) && r.status == wf.status
    ensures r.currentTask == if wf.tasks == [] then None else Some(wf.tasks[0])
  {
    WorkflowResponse(Some(wf.workflowId), wf.status, "Workflow created and started",
                     if wf.tasks == [] then None else Some(wf.tasks[0]), 0.0)
  }

  // ---------------------------------------------------------------------------
  // planning

  /** The `plan_workflow` request the engine sends the planner. */
  function PlanRequest(wf: WorkflowState, messageId: string, plannerId: string): (m: AgentMessage)
    ensures m.action == "plan_workflow" && m.messageId == messageId
    ensures m.payload == map["operation" := Get(wf.context, "operation"),
                             "target_customer_id" := Get(wf.context, "target_customer_id"),
                             "parameters" := GetOr(wf.context, "parameters", Object(map[]))]
  {
    var payload := map[
      "operation" := Get(wf.context, "operation"),
      "target_customer_id" := Get(wf.context, "target_customer_id"),
      "parameters" := GetOr(wf.context, "parameters", Object(map[]))
    ];
    AgentMessage(messageId, Request, Medium, "orchestrator", "orchestrator", Some(plannerId), Some("planner"),
                 wf.workflowId, None, "plan_workflow", payload, None, None, "pending", None, map[])
  }

  /** The task definitions of a planner response, or the error that planning raises. */
  function TaskDefinitions(response: MessageResponse): (r: Result<seq<Value>>)
    ensures !response.success ==> r.Err?
    ensures (response.success && response.result.Some? && "tasks" in response.result.value &&
             response.result.value["tasks"].Array?) ==> r == Ok(response.result.value["tasks"].items)
  {
    if !response.success then Err(if response.error.Some? then response.error.value else "None")
    else if response.result.None? then Err(NoGetError(Null))
    else
      var tasks := GetOr(response.result.value, "tasks", Array([]));
      if tasks.Array? then Ok(tasks.items)
      else Err("'" + TypeName(tasks) + "' object is not iterable")
  }

  function KeyErrorText(key: string): string {
    "'" + key + "'"
  }

  function TaskFieldError(field: string): string {
    "1 validation error for Task\n" + field
  }

  /**
   * One task definition turned into a pending Task: the three required keys
   * must be present, the agent type must be one of the three values, and the
   * fields must have the declared types.
   */
  function DecodeTask(def: Value): (r: Result<Task>)
    ensures r.Ok? ==> r.value.status == TaskPending && r.value.result == None && r.value.error == None
    ensures r.Ok? ==> def.Object? && "task_id" in def.fields && def.fields["task_id"] == Str(r.value.taskId)
    ensures r.Ok? ==> "agent_type" in def.fields && def.fields["agent_type"] == Str(r.value.agentType.ToString())
  {
    if !def.Object? then Err("'" + TypeName(def) + "' object is not subscriptable")
    else
      var d := def.fields;
      if "task_id" !in d then Err(KeyErrorText("task_id"))
      else if "description" !in d then Err(KeyErrorText("description"))
      else if "agent_type" !in d then Err(KeyErrorText("agent_type"))
      else
        var agentType := if d["agent_type"].Str? then ParseAgentType(d["agent_type"].s) else None;
        if agentType.None? then Err(Repr(d["agent_type"]) + " is not a valid AgentType")
        else if !d["task_id"].Str? then Err(TaskFieldError("task_id"))
        else if !d["description"].Str? then Err(TaskFieldError("description"))
        else
          match CheckPriority(GetOr(d, "priority", Num(1.0)))
          case Err(e) => Err(e)
          case Ok(priority) =>
            var parameters := GetOr(d, "parameters", Object(map[]));
            if !parameters.Object? then Err(TaskFieldError("parameters"))
            else Ok(Task(d["task_id"].s, d["description"].s, agentType.value, TaskPending, priority,
                         parameters.fields, None, None))
  }

  /** Decoding undoes the planner's encoding, with the task reset to pending. */
  lemma DecodeEncodedTask(t: Task)
    ensures DecodeTask(Object(PA.EncodeTask(t))) == Ok(t.(status := TaskPending, result := None, error := None))
  {
    AgentTypeValues(t.agentType, t.agentType.ToString());
    var p := Num(t.priority as real);
    assert (t.priority as real).Floor == t.priority;
    assert CheckPriority(p) == Ok(t.priority);
  }

  /** The tasks appended, and the error that stopped the appending, if any. */
  datatype Decoded = Decoded(tasks: seq<Task>, error: Option<string>)

  /** Appends one decoded task per definition, in order, until a definition fails to decode. */
  function AppendDecoded(tasks: seq<Task>, defs: seq<Value>): (d: Decoded)
    ensures |tasks| <= |d.tasks| <= |tasks| + |defs|
    ensures d.tasks[..|tasks|] == tasks
    ensures d.error.None? ==> |d.tasks| == |tasks| + |defs|
    decreases |defs|
  {
    if defs == [] then Decoded(tasks, None)
    else
      match DecodeTask(defs[0])
      case Err(e) => Decoded(tasks, Some(e))
      case Ok(t) =>
        var d := AppendDecoded(tasks + [t], defs[1..]);
        assert d.tasks[..|tasks|] == (d.tasks[..|tasks| + 1])[..|tasks|];
        d
  }

  /** One step of the appending loop: a definition either appends its task or stops with its error. */
  lemma AppendDecodedStep(tasks: seq<Task>, defs: seq<Value>, j: nat)
    requires j < |defs|
    ensures DecodeTask(defs[j]).Err? ==> AppendDecoded(tasks, defs[j..]) == Decoded(tasks, Some(DecodeTask(defs[j]).error))
    ensures DecodeTask(defs[j]).Ok? ==>
              AppendDecoded(tasks, defs[j..]) == AppendDecoded(tasks + [DecodeTask(defs[j]).value], defs[j + 1..])
  {
    assert defs[j..][0] == defs[j] && defs[j..][1..] == defs[j + 1..];
  }

  /**
   * Decoding the planner's definitions of pending tasks appends exactly
   * those tasks, in order, and stops on no error.
   */
  lemma {:induction false} DecodeEncodedTasks(prefix: seq<Task>, tasks: seq<Task>)
    requires forall i :: 0 <= i < |tasks| ==> tasks[i].status == TaskPending && tasks[i].result == None && tasks[i].error == None
    ensures AppendDecoded(prefix, PA.EncodeTasks(tasks)) == Decoded(prefix + tasks, None)
    decreases |tasks|
  {
    var defs := PA.EncodeTasks(tasks);
    if tasks == [] {
      assert defs == [];
      assert prefix + tasks == prefix;
    } else {
      DecodeEncodedTask(tasks[0]);
      assert tasks[0].(status := TaskPending, result := None, error := None) == tasks[0];
      assert defs[0] == Object(PA.EncodeTask(tasks[0]));
      assert defs[1..] == PA.EncodeTasks(tasks[1..]);
      DecodeEncodedTasks(prefix + [tasks[0]], tasks[1..]);
      assert prefix + [tasks[0]] + tasks[1..] == prefix + tasks;
    }
  }

  /** The workflow with the decoded tasks appended: FAILED with the first decoding error, if any. */
  function WithDecoded(wf: WorkflowState, defs: seq<Value>): (p: WorkflowState)
    ensures p == wf.(tasks := p.tasks, status := p.status, error := p.error)
    ensures p.status == Pending || p.status == Failed
    ensures p.status == Failed ==> p.error.Some?
    ensures p.status == Pending ==> p.error == wf.error && |p.tasks| == |wf.tasks| + |defs|
    ensures |wf.tasks| <= |p.tasks| && p.tasks[..|wf.tasks|] == wf.tasks
  {
    var d := AppendDecoded(wf.tasks, defs);
    if d.error.Some? then wf.(tasks := d.tasks, status := Failed, error := d.error)
    else wf.(tasks := d.tasks, status := Pending)
  }

  /**
   * `_plan_workflow`'s effect on a workflow: the planner's tasks appended in
   * order, or FAILED with the error, keeping the tasks appended before it.
   */
  function Planned(wf: WorkflowState, response: MessageResponse): (p: WorkflowState)
    ensures p == wf.(tasks := p.tasks, status := p.status, error := p.error)
    ensures p.status == Pending || p.status == Failed
    ensures p.status == Failed ==> p.error.Some?
    ensures p.status == Pending ==> p.error == wf.error
    ensures |wf.tasks| <= |p.tasks| && p.tasks[..|wf.tasks|] == wf.tasks
  {
    match TaskDefinitions(response)
    case Err(e) => wf.(status := Failed, error := Some(e))
    case Ok(defs) => WithDecoded(wf, defs)
  }


  // ---------------------------------------------------------------------------
  // execution

  /** `{"description", "parameters": {**task.parameters, **workflow.context}}`: the context wins every key. */
  function AgentPayload(task: Task, context: Dict): (p: Dict)
    ensures "parameters" in p && p["parameters"] == Object(Merge(task.parameters, context))
  {
    map["description" := Str(task.description), "parameters" := Object(Merge(task.parameters, context))]
  }

  /** What a task's agent returned, and the customers table after it. */
  datatype StepResult = StepResult(outcome: Result<Dict>, rows: seq<EA.Customer>)

  /** How one task of a run is carried out: its outcome and the table after it. */
  type Stepper = (Task, Dict, seq<EA.Customer>, string) -> StepResult

  /** The call to the agent of the task's type; only the executor touches the table. */
  function Step(task: Task, context: Dict, rows: seq<EA.Customer>, customerId: string): (s: StepResult)
    ensures task.agentType != Executor ==> s.rows == rows
    ensures s.outcome.Err? ==> s.rows == rows
    ensures task.agentType == Planner ==> s.outcome == PA.TaskOutcome(AgentPayload(task, context))
    ensures task.agentType == Validator ==> s.outcome == VA.TaskOutcome(AgentPayload(task, context))
    ensures task.agentType == Executor ==>
              var o := EA.TaskRun(AgentPayload(task, context), rows, customerId);
              s == StepResult(EA.Outcome(o), EA.Committed(o, rows))
  {
    var payload := AgentPayload(task, context);
    match task.agentType
    case Planner => StepResult(PA.TaskOutcome(payload), rows)
    case Validator => StepResult(VA.TaskOutcome(payload), rows)
    case Executor =>
      var o := EA.TaskRun(payload, rows, customerId);
      StepResult(EA.Outcome(o), EA.Committed(o, rows))
  }

  /** A pre-execution validator task whose result says `valid` is `False`. */
  predicate PreValidationFailed(task: Task, result: Dict) {
    task.agentType == Validator && Get(task.parameters, "validation_type") == Str("pre_execution") &&
    var inner := GetOr(result, "result", Object(map[]));
    inner.Object? && Get(inner.fields, "valid") == Bool(false)
  }

  const PreValidationError := "Pre-execution validation failed"

  /** `f"Validation failed: {errors}"` */
  function ValidationFailure(result: Dict): string {
    var inner := GetOr(result, "result", Object(map[]));
    "Validation failed: " + ToText(if inner.Object? then GetOr(inner.fields, "errors", Array([])) else Array([]))
  }

  /** The workflow and table after a run of `_execute_workflow`'s loop. */
  datatype Run = Run(workflow: WorkflowState, rows: seq<EA.Customer>)

  /** The cursor moved to task `i`, and that task marked in progress. */
  function Started(wf: WorkflowState, i: nat): WorkflowState
    requires i < |wf.tasks|
  {
    wf.(currentTaskIndex := i, tasks := wf.tasks[i := wf.tasks[i].(status := InProgress)])
  }

  /** Task `i` replaced by `t`. */
  function WithTask(wf: WorkflowState, i: nat, t: Task): WorkflowState
    requires i < |wf.tasks|
  {
    wf.(tasks := wf.tasks[i := t])
  }

  /**
   * The loop from task `i` on: each task runs in order with the cursor on
   * it. A raising task fails the task and the workflow and ends the run; a
   * failed pre-execution validation fails the task, records the validation
   * errors and leaves the loop, which then marks the workflow COMPLETED; a run
   * past the last task marks it COMPLETED. How one task runs is the
   * parameter `step`; the engine's own is `Step`.
   */
  function RunFrom(wf: WorkflowState, rows: seq<EA.Customer>, i: nat, customerIds: nat -> string, step: Stepper): Run
    requires i <= |wf.tasks|
    decreases |wf.tasks| - i
  {
    if i == |wf.tasks| then Run(wf.(status := Completed), rows)
    else
      var started := Started(wf, i);
      var task := started.tasks[i];
      var s := step(task, wf.context, rows, customerIds(i));
      match s.outcome
      case Err(e) =>
        Run(WithTask(started, i, task.(status := TaskFailed, error := Some(e))).(status := Failed, error := Some(e)), s.rows)
      case Ok(result) =>
        if PreValidationFailed(task, result) then
          Run(WithTask(started, i, task.(result := Some(result), status := TaskFailed, error := Some(PreValidationError)))
                .(status := Completed, error := Some(ValidationFailure(result))), s.rows)
        else
          RunFrom(WithTask(started, i, task.(result := Some(result), status := TaskCompleted)), s.rows, i + 1, customerIds, step)
  }

  /** `_execute_workflow`: the workflow marked RUNNING, then the loop from the first task. */
  function Execute(wf: WorkflowState, rows: seq<EA.Customer>, customerIds: nat -> string): Run {
    RunFrom(wf.(status := Running), rows, 0, customerIds, Step)
  }

  // ---------------------------------------------------------------------------
  // properties of a run

  /**
   * How a run from task `i` ends. Only the tasks, the cursor, the status and
   * the error change. The tasks before `i` and after the cursor are as they
   * were; the tasks from `i` up to the cursor completed. The run ends either
   * FAILED, with the cursor's task failed with the same error, or COMPLETED:
   * after a failed pre-execution validation at the cursor, or with every task
   * from `i` on completed and the error untouched.
   */
  lemma {:induction false} RunFromOutcome(wf: WorkflowState, rows: seq<EA.Customer>, i: nat, customerIds: nat -> string, step: Stepper)
    requires i <= |wf.tasks|
    ensures var w := RunFrom(wf, rows, i, customerIds, step).workflow;
            var c := w.currentTaskIndex;
            w == wf.(tasks := w.tasks, currentTaskIndex := c, status := w.status, error := w.error) &&
            |w.tasks| == |wf.tasks| &&
            (i == |wf.tasks| ==> c == wf.currentTaskIndex) &&
            (i < |wf.tasks| ==> i <= c < |wf.tasks|) &&
            (forall j :: 0 <= j < i ==> w.tasks[j] == wf.tasks[j]) &&
            (forall j :: i <= j < |wf.tasks| && j < c ==> w.tasks[j].status == TaskCompleted) &&
            (forall j :: i <= j < |wf.tasks| && c < j ==> w.tasks[j] == wf.tasks[j]) &&
            (w.status == Failed || w.status == Completed) &&
            (w.status == Failed ==>
               i <= c < |wf.tasks| && w.error.Some? && w.tasks[c].status == TaskFailed && w.tasks[c].error == w.error) &&
            (w.status == Completed ==>
               (i <= c < |wf.tasks| && w.tasks[c].status == TaskFailed && w.tasks[c].error == Some(PreValidationError) &&
                w.error.Some?) ||
               ((forall j :: i <= j < |wf.tasks| ==> w.tasks[j].status == TaskCompleted) && w.error == wf.error))
    decreases |wf.tasks| - i
  {
    if i < |wf.tasks| {
      var started := Started(wf, i);
      var task := started.tasks[i];
      var s := step(task, wf.context, rows, customerIds(i));
      if s.outcome.Ok? && !PreValidationFailed(task, s.outcome.value) {
        var next := WithTask(started, i, task.(result := Some(s.outcome.value), status := TaskCompleted));
        RunFromOutcome(next, s.rows, i + 1, customerIds, step);
      }
    }
  }

  /**
   * Execution never leaves a workflow pending, running or cancelled, and the
   * cursor stays on one of its tasks (or at its old place when there is none).
   */
  lemma ExecutionEnds(wf: WorkflowState, rows: seq<EA.Customer>, customerIds: nat -> string)
    requires WellFormedWorkflow(wf)
    ensures var w := Execute(wf, rows, customerIds).workflow;
            (w.status == Failed || w.status == Completed) && WellFormedWorkflow(w) && w.workflowId == wf.workflowId
  {
    RunFromOutcome(wf.(status := Running), rows, 0, customerIds, Step);
  }

  /**
   * A workflow with no tasks, such as one whose planning failed before any
   * task was appended, still runs: it ends COMPLETED with its error kept.
   */
  lemma EmptyWorkflowCompletes(wf: WorkflowState, rows: seq<EA.Customer>, customerIds: nat -> string)
    requires wf.tasks == []
    ensures Execute(wf, rows, customerIds) == Run(wf.(status := Completed), rows)
  {
  }

  // ---------------------------------------------------------------------------
  // the planned workflow of a request

  /** `_plan_workflow` on a stored workflow: marked PENDING, then planned by the planner's answer. */
  function Replanned(wf: WorkflowState, messageId: string, plannerId: string, ids: PA.PlanIds): WorkflowState {
    var pending := wf.(status := Pending);
    Planned(pending, PA.ProcessMessage(PlanRequest(pending, messageId, plannerId), ids))
  }

  /** The workflow `create_workflow` stores for a request, once planned. */
  function PlanFor(request: WorkflowRequest, workflowId: string, messageId: string, plannerId: string, ids: PA.PlanIds): WorkflowState {
    Replanned(NewWorkflowState(workflowId, request.name, request.description, RequestContext(request)), messageId, plannerId, ids)
  }

  /**
   * The planner answers a plan request whose parameters are a dict with the
   * definitions of its three tasks for the workflow's operation.
   */
  lemma PlannerAnswers(wf: WorkflowState, messageId: string, plannerId: string, ids: PA.PlanIds)
    requires GetOr(wf.context, "parameters", Object(map[])).Object?
    ensures var parameters := GetOr(wf.context, "parameters", Object(map[])).fields;
            var tasks := PA.PlannedTasks(Get(wf.context, "operation"), parameters, ids);
            TaskDefinitions(PA.ProcessMessage(PlanRequest(wf, messageId, plannerId), ids)) == Ok(PA.EncodeTasks(tasks))
  {
    var message := PlanRequest(wf, messageId, plannerId);
    assert Get(message.payload, "operation") == Get(wf.context, "operation");
    assert GetOr(message.payload, "parameters", Object(map[])) == GetOr(wf.context, "parameters", Object(map[]));
  }

  /**
   * Planning a request never fails: the workflow stays PENDING with no error
   * and holds the planner's three tasks, decoded as they were built.
   */
  lemma PlanningSucceeds(request: WorkflowRequest, workflowId: string, messageId: string, plannerId: string, ids: PA.PlanIds)
    ensures var wf := PlanFor(request, workflowId, messageId, plannerId, ids);
            wf.status == Pending && wf.error == None && wf.currentTaskIndex == 0 &&
            wf.context == RequestContext(request) && wf.workflowId == workflowId &&
            wf.tasks == PA.PlannedTasks(Str(request.operation), request.parameters, ids)
  {
    var wf := NewWorkflowState(workflowId, request.name, request.description, RequestContext(request));
    assert wf.(status := Pending) == wf;
    var tasks := PA.PlannedTasks(Str(request.operation), request.parameters, ids);
    PlannerAnswers(wf, messageId, plannerId, ids);
    DecodeEncodedTasks([], tasks);
    assert [] + tasks == tasks;
  }

  /**
   * The pre-execution validator checks the request as it was made: its
   * operation, its parameters and its target.
   */
  lemma PreValidationSeesRequest(request: WorkflowRequest, ids: PA.PlanIds)
    ensures var tasks := PA.PlannedTasks(Str(request.operation), request.parameters, ids);
            var pre := Merge(tasks[0].parameters, RequestContext(request));
            VA.ValidationType(pre) == Str("pre_execution") &&
            Get(pre, "operation") == Str(request.operation) &&
            GetOr(pre, "parameters", Object(map[])) == Object(request.parameters) &&
            Get(pre, "target_customer_id") == RequestContext(request)["target_customer_id"] &&
            Get(pre, "customer_id") == Null
  {
  }

  /**
   * The post-execution validator never sees a `result` key (neither its task
   * nor the context has one), so it always reports valid.
   */
  lemma PostValidationAlwaysValid(request: WorkflowRequest, ids: PA.PlanIds)
    ensures var tasks := PA.PlannedTasks(Str(request.operation), request.parameters, ids);
            var post := Merge(tasks[2].parameters, RequestContext(request));
            VA.ValidationType(post) == Str("post_execution") && VA.ValidateResult(post).valid
  {
    var tasks := PA.PlannedTasks(Str(request.operation), request.parameters, ids);
    var post := Merge(tasks[2].parameters, RequestContext(request));
    assert "result" !in post;
  }

  /**
   * The executor runs the request's operation, writes exactly the updatable
   * columns among the request's parameters, and addresses the request's
   * target, or else the `customer_id` among its parameters.
   */
  lemma ExecutorSeesRequest(request: WorkflowRequest, ids: PA.PlanIds)
    ensures var tasks := PA.PlannedTasks(Str(request.operation), request.parameters, ids);
            var exec := Merge(tasks[1].parameters, RequestContext(request));
            Get(exec, "operation") == Str(request.operation) &&
            EA.UpdateData(exec) == EA.UpdateData(request.parameters) &&
            TargetOf(exec) == Or(RequestContext(request)["target_customer_id"], Get(request.parameters, "customer_id"))
  {
    var tasks := PA.PlannedTasks(Str(request.operation), request.parameters, ids);
    var context := RequestContext(request);
    var exec := Merge(tasks[1].parameters, context);
    assert Get(exec, "customer_id") == Get(request.parameters, "customer_id") by {
      if "customer_id" in request.parameters {
        assert exec["customer_id"] == tasks[1].parameters["customer_id"];
      }
    }
    forall k | k in request.parameters && k !in EA.ControlKeys
      ensures k in exec && exec[k] == request.parameters[k]
    {
      assert k !in context;
    }
    forall k | k in exec && k !in EA.ControlKeys
      ensures k in request.parameters
    {
      assert k !in context;
    }
    assert EA.UpdateData(exec) == EA.UpdateData(request.parameters);
  }

  // ---------------------------------------------------------------------------
  // status projections

  /** `sum(1 for t in tasks if t.status == COMPLETED)` */
  function CountCompleted(tasks: seq<Task>): (n: nat)
    ensures n <= |tasks|
    ensures n == |tasks| <==> forall j :: 0 <= j < |tasks| ==> tasks[j].status == TaskCompleted
    ensures n == 0 <==> forall j :: 0 <= j < |tasks| ==> tasks[j].status != TaskCompleted
  {
    if tasks == [] then 0
    else
      var rest := CountCompleted(tasks[1..]);
      assert forall j :: 1 <= j < |tasks| ==> tasks[j] == tasks[1..][j - 1];
      (if tasks[0].status == TaskCompleted then 1 else 0) + rest
  }

  lemma Percentage(c: real, n: real)
    requires 0.0 <= c <= n && 0.0 < n
    ensures 0.0 <= (c / n) * 100.0 <= 100.0
    ensures (c / n) * 100.0 == 100.0 <==> c == n
    ensures (c / n) * 100.0 == 0.0 <==> c == 0.0
  {
    var q := c / n;
    assert q * n == c;
    assert 0.0 <= q;
  }

  /** Completed tasks over all tasks, as a percentage; 0 without tasks. */
  function Progress(tasks: seq<Task>): (p: real)
    ensures 0.0 <= p <= 100.0
    ensures p == 100.0 <==> tasks != [] && forall j :: 0 <= j < |tasks| ==> tasks[j].status == TaskCompleted
    ensures p == 0.0 <==> forall j :: 0 <= j < |tasks| ==> tasks[j].status != TaskCompleted
  {
    if tasks == [] then 0.0
    else
      var c := CountCompleted(tasks) as real;
      var n := |tasks| as real;
      Percentage(c, n);
      (c / n) * 100.0
  }

  /** One entry of `list_workflows`; the creation time is not modelled. */
  function Summary(wf: WorkflowState): (d: Dict)
    ensures d.Keys == {"workflow_id", "name", "status", "tasks_total", "tasks_completed"}
    ensures d["workflow_id"] == Str(wf.workflowId) && d["name"] == Str(wf.name) && d["status"] == Str(wf.status.ToString())
    ensures d["tasks_total"] == Num(|wf.tasks| as real) && d["tasks_completed"] == Num(CountCompleted(wf.tasks) as real)
    ensures d["tasks_completed"].n <= d["tasks_total"].n
    ensures d["tasks_completed"] == d["tasks_total"] <==> forall j :: 0 <= j < |wf.tasks| ==> wf.tasks[j].status == TaskCompleted
  {
    map[
      "workflow_id" := Str(wf.workflowId),
      "name" := Str(wf.name),
      "status" := Str(wf.status.ToString()),
      "tasks_total" := Num(|wf.tasks| as real),
      "tasks_completed" := Num(CountCompleted(wf.tasks) as real)
    ]
  }

  // ---------------------------------------------------------------------------
  // the engine

  /**
   * The loop of `_plan_workflow` over the planner's task definitions: each
   * one decoded and appended in order, until one does not decode, which
   * fails the workflow with its error.
   */
  method AppendTasks(wf: WorkflowState, defs: seq<Value>) returns (current: WorkflowState)
    requires WellFormedWorkflow(wf) && wf.status == Pending
    ensures current == WithDecoded(wf, defs)
    ensures WellFormedWorkflow(current)
  {
    var tasks := wf.tasks;
    var error: Option<string> := None;
    var j := 0;
    while j < |defs| && error.None?
      invariant 0 <= j <= |defs|
      invariant error.None? ==> AppendDecoded(tasks, defs[j..]) == AppendDecoded(wf.tasks, defs)
      invariant error.Some? ==> AppendDecoded(wf.tasks, defs) == Decoded(tasks, error)
      decreases |defs| - j, if error.Some? then 0 else 1
    {
      var decoded := DecodeTask(defs[j]);
      AppendDecodedStep(tasks, defs, j);
      if decoded.Err? {
        error := Some(decoded.error);
      } else {
        tasks := tasks + [decoded.value];
        j := j + 1;
      }
    }
    if error.None? {
      assert defs[j..] == [];
      current := wf.(tasks := tasks, status := Pending);
    } else {
      current := wf.(tasks := tasks, status := Failed, error := error);
    }
  }

  class OrchestrationEngine {
    var workflows: map<string, WorkflowState>
    const planner: PA.PlannerAgent
    const executor: EA.ExecutorAgent
    const validator: VA.ValidatorAgent

    predicate Valid()
      reads this
    {
      ValidTable(workflows)
    }

    constructor (contextStore: ContextStore, plannerHex: string, executorHex: string, validatorHex: string)
      ensures workflows == map[] && Valid()
      ensures fresh(planner) && fresh(executor) && fresh(validator)
      ensures fresh(planner.agent) && fresh(executor.agent) && fresh(validator.agent)
      ensures executor.dbSession == null
    {
      workflows := map[];
      planner := new PA.PlannerAgent(contextStore, None, plannerHex);
      executor := new EA.ExecutorAgent(contextStore, None, executorHex);
      validator := new VA.ValidatorAgent(contextStore, None, validatorHex);
    }

    /**
     * `create_workflow`: refused at capacity with nothing changed; otherwise
     * the workflow is stored, planned, and scheduled for execution (even when
     * planning failed).
     */
    method CreateWorkflow(request: WorkflowRequest, workflowId: string, messageId: string, ids: PA.PlanIds)
      returns (response: WorkflowResponse, scheduled: bool)
      requires Valid()
      modifies this`workflows
      ensures Valid()
      ensures CountActive(old(workflows)) >= MaxConcurrentWorkflows ==>
                response == Rejection() && !scheduled && workflows == old(workflows)
      ensures CountActive(old(workflows)) < MaxConcurrentWorkflows ==>
                var wf := Replanned(NewWorkflowState(workflowId, request.name, request.description, RequestContext(request)),
                                    messageId, planner.agent.agentId, ids);
                workflows == old(workflows)[workflowId := wf] && scheduled && response == Accepted(wf)
    {
      if CountActive(workflows) >= MaxConcurrentWorkflows {
        return Rejection(), false;
      }
      var wf := NewWorkflowState(workflowId, request.name, request.description, RequestContext(request));
      ValidTableUpdate(workflows, workflowId, wf);
      workflows := workflows[workflowId := wf];
      PlanWorkflow(wf, messageId, ids);
      StoreTwice(old(workflows), workflowId, wf, Replanned(wf, messageId, planner.agent.agentId, ids));
      scheduled := true;
      response := Accepted(workflows[workflowId]);
    }

    /**
     * `_plan_workflow`: marks the workflow PENDING, asks the planner for task
     * definitions and appends their tasks.
     */
    method PlanWorkflow(wf: WorkflowState, messageId: string, ids: PA.PlanIds)
      requires Valid() && wf.workflowId in workflows && workflows[wf.workflowId] == wf
      modifies this`workflows
      ensures Valid()
      ensures workflows == old(workflows)[wf.workflowId := Replanned(wf, messageId, planner.agent.agentId, ids)]
    {
      var pending := wf.(status := Pending);
      var response := PA.ProcessMessage(PlanRequest(pending, messageId, planner.agent.agentId), ids);
      AppendPlannedTasks(pending, response);
    }

    /**
     * The body of `_plan_workflow`'s `try`: a failed response, or a
     * definition that does not decode, fails the workflow with its error;
     * otherwise one task is appended per definition, in order. The stored
     * workflow is written back when the appending ends, which no other call
     * can observe in between.
     */
    method AppendPlannedTasks(wf: WorkflowState, response: MessageResponse)
      requires Valid() && wf.workflowId in workflows && WellFormedWorkflow(wf) && wf.status == Pending
      modifies this`workflows
      ensures Valid()
      ensures workflows == old(workflows)[wf.workflowId := Planned(wf, response)]
    {
      var current;
      var definitions := TaskDefinitions(response);
      if definitions.Err? {
        current := wf.(status := Failed, error := Some(definitions.error));
      } else {
        current := AppendTasks(wf, definitions.value);
      }
      ValidTableUpdate(workflows, wf.workflowId, current);
      workflows := workflows[wf.workflowId := current];
    }

    /**
     * `_execute_workflow`: the workflow marked RUNNING, the executor given
     * the session, then the tasks in order, each by its agent, with the
     * cursor on it; see `RunFrom` for how a run ends. The stored workflow is
     * written back when the run ends, which no other call can observe in
     * between.
     */
    method ExecuteWorkflow(workflowId: string, db: EA.Session, customerIds: nat -> string)
      requires Valid() && workflowId in workflows
      modifies this`workflows, executor`dbSession, planner.agent`status, executor.agent`status,
               validator.agent`status, db
      ensures Valid()
      ensures var run := Execute(old(workflows[workflowId]), old(db.rows), customerIds);
              workflows == old(workflows)[workflowId := run.workflow] && db.rows == run.rows
      ensures executor.dbSession == db
      ensures old(db.Valid()) ==> db.Valid()
    {
      executor.SetDbSession(db);
      var wf := RunTasks(workflows[workflowId].(status := Running), db, customerIds);
      ExecutionEnds(old(workflows[workflowId]), old(db.rows), customerIds);
      ValidTableUpdate(workflows, workflowId, wf);
      workflows := workflows[workflowId := wf];
    }

    /**
     * The loop of `_execute_workflow`: each task in order, with the cursor on
     * it, run by its agent; see `RunFrom` for how the loop ends.
     */
    method RunTasks(start: WorkflowState, db: EA.Session, customerIds: nat -> string) returns (wf: WorkflowState)
      requires executor.dbSession == db
      modifies planner.agent`status, executor.agent`status, validator.agent`status, db
      ensures Run(wf, db.rows) == RunFrom(start, old(db.rows), 0, customerIds, Step)
      ensures old(db.Valid()) ==> db.Valid()
    {
      wf := start;
      var i := 0;
      while i < |wf.tasks|
        invariant 0 <= i <= |wf.tasks|
        invariant RunFrom(wf, db.rows, i, customerIds, Step) == RunFrom(start, old(db.rows), 0, customerIds, Step)
        invariant old(db.Valid()) ==> db.Valid()
        decreases |wf.tasks| - i
      {
        var started := Started(wf, i);
        var task := started.tasks[i];
        var outcome := RouteTask(task, wf.context, db, customerIds(i));
        if outcome.Err? {
          wf := WithTask(started, i, task.(status := TaskFailed, error := Some(outcome.error)));
          wf := wf.(status := Failed, error := Some(outcome.error));
          return;
        }
        var result := outcome.value;
        if PreValidationFailed(task, result) {
          wf := WithTask(started, i, task.(result := Some(result), status := TaskFailed, error := Some(PreValidationError)));
          wf := wf.(status := Failed, error := Some(ValidationFailure(result)));
          break;
        }
        wf := WithTask(started, i, task.(result := Some(result), status := TaskCompleted));
        i := i + 1;
      }
      wf := wf.(status := Completed);
    }

    /**
     * The routing in `_execute_workflow`: the task's agent runs it on the
     * task's parameters overlaid with the workflow's context; only the
     * executor touches the table.
     */
    method RouteTask(task: Task, context: Dict, db: EA.Session, customerId: string) returns (outcome: Result<Dict>)
      requires executor.dbSession == db
      modifies planner.agent`status, executor.agent`status, validator.agent`status, db
      ensures StepResult(outcome, db.rows) == Step(task, context, old(db.rows), customerId)
      ensures old(db.Valid()) ==> db.Valid()
    {
      var payload := AgentPayload(task, context);
      match task.agentType {
        case Planner => outcome := planner.ExecuteTask(payload);
        case Validator => outcome := validator.ExecuteTask(payload);
        case Executor => outcome := executor.ExecuteTask(payload, customerId);
      }
    }

    /**
     * `get_workflow_status`: nothing for an unknown id; otherwise the status,
     * the progress and the task under the cursor.
     */
    function GetWorkflowStatus(workflowId: string): (r: Option<WorkflowResponse>)
      requires Valid()
      reads this
      ensures workflowId !in workflows <==> r == None
      ensures r.Some? ==>
                var wf := workflows[workflowId];
                AcceptedAsDeclared(r.value) && r.value.workflowId == Some(workflowId) &&
                r.value.status == wf.status && r.value.progress == Progress(wf.tasks) &&
                (r.value.currentTask.Some? <==> wf.tasks != []) &&
                (wf.tasks != [] ==> r.value.currentTask == Some(wf.tasks[wf.currentTaskIndex]))
    {
      if workflowId !in workflows then None
      else
        var wf := workflows[workflowId];
        Some(WorkflowResponse(Some(wf.workflowId), wf.status, "Workflow " + wf.status.ToString(),
                              if wf.currentTaskIndex < |wf.tasks| then Some(wf.tasks[wf.currentTaskIndex]) else None,
                              Progress(wf.tasks)))
    }

    /** `list_workflows`: one summary per stored workflow (in no particular order). */
    function ListWorkflows(): (r: map<string, Dict>)
      reads this
      ensures r.Keys == workflows.Keys
      ensures forall id :: id in r ==> r[id] == Summary(workflows[id])
    {
      map id | id in workflows :: Summary(workflows[id])
    }
  }
}
