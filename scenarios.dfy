/**
 * Whole-workflow consequences: a request planned by `create_workflow` and
 * then run by `_execute_workflow`.
 */
module Scenarios {
  import opened Values
  import opened WorkflowModels
  import opened Agents
  import PA = Planner
  import VA = Validator
  import EA = Executor
  import opened Orchestrator

  /** The inner `result` dictionary of a validator task's result. */
  function ValidatorReport(task: Task): Value {
    if task.result.None? then Null else GetOr(task.result.value, "result", Object(map[]))
  }

  /**
   * A run whose first task comes back as a failed pre-execution validation
   * stops there: the table is as that task left it, the cursor stays on it,
   * it is FAILED with the validator's result, and the workflow is COMPLETED.
   */
  lemma FirstTaskBlocks(wf: WorkflowState, rows: seq<EA.Customer>, customerIds: nat -> string, step: Stepper)
    requires wf.tasks != []
    requires var task := Started(wf, 0).tasks[0];
             var s := step(task, wf.context, rows, customerIds(0));
             s.outcome.Ok? && PreValidationFailed(task, s.outcome.value)
    ensures var task := Started(wf, 0).tasks[0];
            var s := step(task, wf.context, rows, customerIds(0));
            var w := RunFrom(wf, rows, 0, customerIds, step).workflow;
            RunFrom(wf, rows, 0, customerIds, step).rows == s.rows &&
            w.status == Completed && w.error.Some? && w.currentTaskIndex == 0 && |w.tasks| == |wf.tasks| &&
            w.tasks[0] == task.(result := Some(s.outcome.value), status := TaskFailed, error := Some(PreValidationError)) &&
            w.tasks[1..] == wf.tasks[1..]
  {
  }

  /** The pre-execution validator's step on a request: the table untouched, its report wrapped as a success. */
  lemma PreValidationStep(task: Task, context: Dict, rows: seq<EA.Customer>, customerId: string)
    requires task.agentType == Validator
    requires VA.ValidationType(Merge(task.parameters, context)) == Str("pre_execution")
    requires VA.ValidateRequest(Merge(task.parameters, context)).Ok?
    ensures Step(task, context, rows, customerId) ==
            StepResult(Ok(VA.Wrapped(VA.ValidateRequest(Merge(task.parameters, context)).value)), rows)
  {
  }

  /** The report on a task holding a wrapped validation result is that result's dictionary. */
  lemma WrappedReport(task: Task, v: ValidationResult)
    requires task.result == Some(VA.Wrapped(v))
    ensures ValidatorReport(task) == Object(v.ToDict())
    ensures Get(v.ToDict(), "valid") == Bool(v.valid) && Get(v.ToDict(), "errors") == Array(v.errors)
  {
  }

  /** A pre-execution validator task whose wrapped report is invalid counts as a failed pre-execution validation. */
  lemma WrappedRejection(task: Task, v: ValidationResult)
    requires task.agentType == Validator && Get(task.parameters, "validation_type") == Str("pre_execution")
    requires !v.valid
    ensures PreValidationFailed(task, VA.Wrapped(v))
  {
  }

  /** A wrapped report that is valid never counts as a failed pre-execution validation. */
  lemma WrappedAcceptance(task: Task, v: ValidationResult)
    requires v.valid
    ensures !PreValidationFailed(task, VA.Wrapped(v))
  {
  }

  /** A negative number that a float can hold, as the credit limit, makes the request check fail with that error. */
  lemma NegativeCreditLimitInvalid(payload: Dict)
    requires GetOr(payload, "parameters", Object(map[])).Object?
    requires var parameters := GetOr(payload, "parameters", Object(map[])).fields;
             "credit_limit" in parameters && parameters["credit_limit"].Num? &&
             -FloatOverflow < parameters["credit_limit"].n < 0.0
    ensures VA.ValidateRequest(payload).Ok? && !VA.ValidateRequest(payload).value.valid
    ensures Str(VA.NegativeCreditLimit) in VA.ValidateRequest(payload).value.errors
  {
  }

  /**
   * An integer credit limit too large in magnitude for a float makes
   * `float()` raise, so the request check reports it as not a number, even
   * when it is negative.
   */
  lemma HugeCreditLimitNotNumber(payload: Dict)
    requires GetOr(payload, "parameters", Object(map[])).Object?
    requires var parameters := GetOr(payload, "parameters", Object(map[])).fields;
             "credit_limit" in parameters && parameters["credit_limit"].Num? &&
             (parameters["credit_limit"].n <= -FloatOverflow || FloatOverflow <= parameters["credit_limit"].n)
    ensures VA.ValidateRequest(payload).Ok? && !VA.ValidateRequest(payload).value.valid
    ensures Str(VA.CreditLimitNotNumber) in VA.ValidateRequest(payload).value.errors
    ensures Str(VA.NegativeCreditLimit) !in VA.ValidateRequest(payload).value.errors
  {
  }

  /**
   * Of the tasks planned for an update with a negative credit limit, the
   * first is the pre-execution validator, and it rejects the request it sees.
   */
  lemma PreValidationRejects(request: WorkflowRequest, wf: WorkflowState, ids: PA.PlanIds)
    requires request.operation == "update"
    requires "credit_limit" in request.parameters && request.parameters["credit_limit"].Num?
    requires -FloatOverflow < request.parameters["credit_limit"].n < 0.0
    requires wf.tasks == PA.PlannedTasks(Str(request.operation), request.parameters, ids)
    requires wf.context == RequestContext(request)
    ensures |wf.tasks| == 3 && wf.tasks[1].status == TaskPending
    ensures var task := Started(wf, 0).tasks[0];
            var pre := Merge(task.parameters, wf.context);
            task.agentType == Validator && VA.ValidationType(pre) == Str("pre_execution") &&
            Get(task.parameters, "validation_type") == Str("pre_execution") &&
            VA.ValidateRequest(pre).Ok? && !VA.ValidateRequest(pre).value.valid &&
            Str(VA.NegativeCreditLimit) in VA.ValidateRequest(pre).value.errors
  {
    PreValidationSeesRequest(request, ids);
    var task := Started(wf, 0).tasks[0];
    NegativeCreditLimitInvalid(Merge(task.parameters, wf.context));
  }

  /**
   * A run whose first task is a pre-execution validation that rejects what
   * it sees stops at that task, with the table untouched and the
   * validator's report recorded on the task.
   */
  lemma RejectedRun(wf: WorkflowState, rows: seq<EA.Customer>, customerIds: nat -> string)
    requires wf.tasks != []
    requires var task := Started(wf, 0).tasks[0];
             var pre := Merge(task.parameters, wf.context);
             task.agentType == Validator && VA.ValidationType(pre) == Str("pre_execution") &&
             Get(task.parameters, "validation_type") == Str("pre_execution") &&
             VA.ValidateRequest(pre).Ok? && !VA.ValidateRequest(pre).value.valid
    ensures var task := Started(wf, 0).tasks[0];
            var v := VA.ValidateRequest(Merge(task.parameters, wf.context)).value;
            var run := RunFrom(wf, rows, 0, customerIds, Step);
            var w := run.workflow;
            run.rows == rows && w.status == Completed && w.error.Some? && w.currentTaskIndex == 0 &&
            |w.tasks| == |wf.tasks| && w.tasks[1..] == wf.tasks[1..] &&
            w.tasks[0] == task.(result := Some(VA.Wrapped(v)), status := TaskFailed, error := Some(PreValidationError))
  {
    var task := Started(wf, 0).tasks[0];
    var v := VA.ValidateRequest(Merge(task.parameters, wf.context)).value;
    PreValidationStep(task, wf.context, rows, customerIds(0));
    WrappedRejection(task, v);
    FirstTaskBlocks(wf, rows, customerIds, Step);
  }

  /**
   * An update whose `credit_limit` is a negative number within the float
   * range is stopped by the pre-execution validator: the table is untouched, the executor never
   * runs, the cursor stays on the failed validator task whose report is
   * invalid and names the negative credit limit, and the workflow ends
   * COMPLETED with the validation error recorded. `PlanningSucceeds`
   * shows that `create_workflow` stores such a workflow for every request.
   */
  lemma NegativeCreditLimitBlocked(request: WorkflowRequest, wf: WorkflowState, ids: PA.PlanIds,
                                   rows: seq<EA.Customer>, customerIds: nat -> string)
    requires request.operation == "update"
    requires "credit_limit" in request.parameters && request.parameters["credit_limit"].Num?
    requires -FloatOverflow < request.parameters["credit_limit"].n < 0.0
    requires wf.tasks == PA.PlannedTasks(Str(request.operation), request.parameters, ids)
    requires wf.context == RequestContext(request)
    ensures var run := Execute(wf, rows, customerIds);
            var w := run.workflow;
            run.rows == rows && w.status == Completed && w.error.Some? && w.currentTaskIndex == 0 &&
            |w.tasks| == 3 && w.tasks[0].agentType == Validator && w.tasks[0].status == TaskFailed &&
            w.tasks[1].status == TaskPending &&
            var report := ValidatorReport(w.tasks[0]);
            report.Object? && Get(report.fields, "valid") == Bool(false) &&
            Get(report.fields, "errors").Array? && Str(VA.NegativeCreditLimit) in Get(report.fields, "errors").items
  {
    var running := wf.(status := Running);
    PreValidationRejects(request, running, ids);
    RejectedRun(running, rows, customerIds);
    var task := Started(running, 0).tasks[0];
    var v := VA.ValidateRequest(Merge(task.parameters, running.context)).value;
    WrappedReport(Execute(wf, rows, customerIds).workflow.tasks[0], v);
  }

  /** A step that returns a result other than a failed pre-execution validation completes its task, and the run goes on. */
  lemma StepCompletes(wf: WorkflowState, rows: seq<EA.Customer>, i: nat, customerIds: nat -> string, step: Stepper)
    requires i < |wf.tasks|
    requires var task := Started(wf, i).tasks[i];
             var s := step(task, wf.context, rows, customerIds(i));
             s.outcome.Ok? && !PreValidationFailed(task, s.outcome.value)
    ensures var task := Started(wf, i).tasks[i];
            var s := step(task, wf.context, rows, customerIds(i));
            RunFrom(wf, rows, i, customerIds, step) ==
            RunFrom(WithTask(Started(wf, i), i, task.(result := Some(s.outcome.value), status := TaskCompleted)),
                    s.rows, i + 1, customerIds, step)
  {
  }

  /**
   * An update naming a target, carrying parameters and whose credit limit
   * is absent or a non-negative number passes the request check.
   */
  lemma UpdateRequestValid(payload: Dict)
    requires Get(payload, "operation") == Str("update") && Truthy(TargetOf(payload))
    requires var parameters := GetOr(payload, "parameters", Object(map[]));
             parameters.Object? && parameters.fields != map[]
    requires var creditLimit := Get(GetOr(payload, "parameters", Object(map[])).fields, "credit_limit");
             creditLimit == Null || (ToFloat(creditLimit).Some? && ToFloat(creditLimit).value >= 0.0)
    ensures VA.ValidateRequest(payload).Ok? && VA.ValidateRequest(payload).value.valid
  {
  }

  /** The post-execution validator's step: the table untouched, the result check wrapped as a success. */
  lemma PostValidationStep(task: Task, context: Dict, rows: seq<EA.Customer>, customerId: string)
    requires task.agentType == Validator
    requires VA.ValidationType(Merge(task.parameters, context)) == Str("post_execution")
    ensures Step(task, context, rows, customerId) ==
            StepResult(Ok(VA.Wrapped(VA.ValidateResult(Merge(task.parameters, context)))), rows)
  {
  }

  /**
   * The executor's step on an update with a target that some row has and
   * data that binds: a success envelope, and the table with that row
   * rewritten.
   */
  lemma UpdateStep(task: Task, context: Dict, rows: seq<EA.Customer>, customerId: string)
    requires task.agentType == Executor
    requires var exec := Merge(task.parameters, context);
             Get(exec, "operation") == Str("update") && Truthy(TargetOf(exec)) &&
             EA.UpdateData(exec) != map[] && EA.DataBinds(EA.UpdateData(exec)) && EA.Find(rows, TargetOf(exec)) >= 0
    ensures var exec := Merge(task.parameters, context);
            var s := Step(task, context, rows, customerId);
            s.outcome.Ok? && s.outcome.value["status"] == Str("success") &&
            s.rows == EA.UpdateRows(rows, TargetOf(exec), EA.UpdateData(exec))
  {
    var exec := Merge(task.parameters, context);
    var payload := AgentPayload(task, context);
    assert GetOr(payload, "parameters", Object(map[])) == Object(exec);
    assert EA.Operation(Str("update"), Object(exec), rows, customerId) == EA.Update(exec, rows);
  }

  /** The conditions under which an update request goes through: see `UpdateCompletes`. */
  predicate UpdateGoesThrough(request: WorkflowRequest, rows: seq<EA.Customer>) {
    request.operation == "update" &&
    request.targetCustomerId.Some? && request.targetCustomerId.value != "" &&
    EA.UpdateData(request.parameters) != map[] && EA.DataBinds(EA.UpdateData(request.parameters)) &&
    (var creditLimit := Get(request.parameters, "credit_limit");
     creditLimit == Null || (ToFloat(creditLimit).Some? && ToFloat(creditLimit).value >= 0.0)) &&
    EA.Find(rows, Str(request.targetCustomerId.value)) >= 0
  }

  /** Some update goes through: a new credit limit for the only customer of a one-row table. */
  lemma UpdateCanGoThrough()
    ensures var request := WorkflowRequest("raise limit", None, "update", Some("CUST000001"),
                                           map["credit_limit" := Num(500.0)]);
            UpdateGoesThrough(request, [EA.Customer("CUST000001", map[])])
  {
    var parameters := map["credit_limit" := Num(500.0)];
    assert "credit_limit" in EA.ValidColumns && "credit_limit" !in EA.ControlKeys;
    assert EA.UpdateData(parameters) == parameters;
  }

  /** The planned pre-execution validator passes such an update, leaving the table as it is. */
  lemma UpdatePassesPreValidation(request: WorkflowRequest, ids: PA.PlanIds, task: Task, rows: seq<EA.Customer>, customerId: string)
    requires UpdateGoesThrough(request, rows)
    requires var planned := PA.PlannedTasks(Str(request.operation), request.parameters, ids)[0];
             task.agentType == planned.agentType && task.parameters == planned.parameters
    ensures var s := Step(task, RequestContext(request), rows, customerId);
            s.outcome.Ok? && !PreValidationFailed(task, s.outcome.value) && s.rows == rows
  {
    PreValidationSeesRequest(request, ids);
    var pre := Merge(task.parameters, RequestContext(request));
    assert request.parameters != map[] by {
      var k :| k in EA.UpdateData(request.parameters);
    }
    UpdateRequestValid(pre);
    PreValidationStep(task, RequestContext(request), rows, customerId);
    WrappedAcceptance(task, VA.ValidateRequest(pre).value);
  }

  /** The planned executor task of such an update rewrites the target's row. */
  lemma UpdateExecutes(request: WorkflowRequest, ids: PA.PlanIds, task: Task, rows: seq<EA.Customer>, customerId: string)
    requires UpdateGoesThrough(request, rows)
    requires var planned := PA.PlannedTasks(Str(request.operation), request.parameters, ids)[1];
             task.agentType == planned.agentType && task.parameters == planned.parameters
    ensures var s := Step(task, RequestContext(request), rows, customerId);
            s.outcome.Ok? && !PreValidationFailed(task, s.outcome.value) &&
            s.rows == EA.UpdateRows(rows, Str(request.targetCustomerId.value), EA.UpdateData(request.parameters))
  {
    ExecutorSeesRequest(request, ids);
    UpdateStep(task, RequestContext(request), rows, customerId);
  }

  /** The planned post-execution validator passes, leaving the table as it is. */
  lemma UpdatePassesPostValidation(request: WorkflowRequest, ids: PA.PlanIds, task: Task, rows: seq<EA.Customer>, customerId: string)
    requires var planned := PA.PlannedTasks(Str(request.operation), request.parameters, ids)[2];
             task.agentType == planned.agentType && task.parameters == planned.parameters
    ensures var s := Step(task, RequestContext(request), rows, customerId);
            s.outcome.Ok? && !PreValidationFailed(task, s.outcome.value) && s.rows == rows
  {
    PostValidationAlwaysValid(request, ids);
    PostValidationStep(task, RequestContext(request), rows, customerId);
  }

  /**
   * A run of three tasks, each of whose steps returns a result other than a
   * failed pre-execution validation, completes every task and ends
   * COMPLETED with the table the last step left and the error untouched.
   */
  lemma ThreeStepsComplete(wf: WorkflowState, rows: seq<EA.Customer>, customerIds: nat -> string, step: Stepper)
    requires |wf.tasks| == 3
    requires var t0 := wf.tasks[0].(status := InProgress);
             var s0 := step(t0, wf.context, rows, customerIds(0));
             s0.outcome.Ok? && !PreValidationFailed(t0, s0.outcome.value) &&
             var t1 := wf.tasks[1].(status := InProgress);
             var s1 := step(t1, wf.context, s0.rows, customerIds(1));
             s1.outcome.Ok? && !PreValidationFailed(t1, s1.outcome.value) &&
             var t2 := wf.tasks[2].(status := InProgress);
             var s2 := step(t2, wf.context, s1.rows, customerIds(2));
             s2.outcome.Ok? && !PreValidationFailed(t2, s2.outcome.value)
    ensures var t0 := wf.tasks[0].(status := InProgress);
            var s0 := step(t0, wf.context, rows, customerIds(0));
            var t1 := wf.tasks[1].(status := InProgress);
            var s1 := step(t1, wf.context, s0.rows, customerIds(1));
            var t2 := wf.tasks[2].(status := InProgress);
            var s2 := step(t2, wf.context, s1.rows, customerIds(2));
            var run := RunFrom(wf, rows, 0, customerIds, step);
            var w := run.workflow;
            run.rows == s2.rows && w.status == Completed && w.error == wf.error && w.currentTaskIndex == 2 &&
            |w.tasks| == 3 && forall j :: 0 <= j < 3 ==> w.tasks[j].status == TaskCompleted
  {
    var t0 := Started(wf, 0).tasks[0];
    var s0 := step(t0, wf.context, rows, customerIds(0));
    StepCompletes(wf, rows, 0, customerIds, step);
    var w1 := WithTask(Started(wf, 0), 0, t0.(result := Some(s0.outcome.value), status := TaskCompleted));
    var t1 := Started(w1, 1).tasks[1];
    assert t1 == wf.tasks[1].(status := InProgress);
    var s1 := step(t1, wf.context, s0.rows, customerIds(1));
    StepCompletes(w1, s0.rows, 1, customerIds, step);
    var w2 := WithTask(Started(w1, 1), 1, t1.(result := Some(s1.outcome.value), status := TaskCompleted));
    var t2 := Started(w2, 2).tasks[2];
    assert t2 == wf.tasks[2].(status := InProgress);
    var s2 := step(t2, wf.context, s1.rows, customerIds(2));
    StepCompletes(w2, s1.rows, 2, customerIds, step);
    var w3 := WithTask(Started(w2, 2), 2, t2.(result := Some(s2.outcome.value), status := TaskCompleted));
    assert RunFrom(wf, rows, 0, customerIds, step) == Run(w3.(status := Completed), s2.rows);
  }

  /**
   * An update of an existing customer, with a target, data that binds and
   * a credit limit that is absent or non-negative, runs all three tasks: the
   * workflow ends COMPLETED with its error untouched, every task completed,
   * the cursor on the last task, and the target's row rewritten with the
   * updatable columns among the request's parameters.
   */
  lemma UpdateCompletes(request: WorkflowRequest, wf: WorkflowState, ids: PA.PlanIds,
                        rows: seq<EA.Customer>, customerIds: nat -> string)
    requires UpdateGoesThrough(request, rows)
    requires wf.tasks == PA.PlannedTasks(Str(request.operation), request.parameters, ids)
    requires wf.context == RequestContext(request)
    ensures var run := Execute(wf, rows, customerIds);
            var w := run.workflow;
            run.rows == EA.UpdateRows(rows, Str(request.targetCustomerId.value), EA.UpdateData(request.parameters)) &&
            w.status == Completed && w.error == wf.error && w.currentTaskIndex == 2 && |w.tasks| == 3 &&
            forall j :: 0 <= j < 3 ==> w.tasks[j].status == TaskCompleted
  {
    var context := wf.context;
    var t0 := wf.tasks[0].(status := InProgress);
    UpdatePassesPreValidation(request, ids, t0, rows, customerIds(0));
    var t1 := wf.tasks[1].(status := InProgress);
    UpdateExecutes(request, ids, t1, rows, customerIds(1));
    var s1 := Step(t1, context, rows, customerIds(1));
    var t2 := wf.tasks[2].(status := InProgress);
    UpdatePassesPostValidation(request, ids, t2, s1.rows, customerIds(2));
    ThreeStepsComplete(wf.(status := Running), rows, customerIds, Step);
  }
}
