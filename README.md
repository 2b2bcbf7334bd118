# Multi-agent customer-operations orchestrator, modelled in Dafny

This project models the core of a small multi-agent system that carries out
customer-record operations (create, update, delete, query) on a `customers`
table. The model covers the following parts:

* **Orchestration engine.** The engine keeps a table of workflows. It refuses
  a new workflow when five are already pending or running. It asks the
  planner agent for task definitions and decodes them into tasks. Then it
  runs the tasks strictly in order, routing each one to the agent of its
  type. It also reports a workflow's status and progress and lists all
  workflows.
* **Planner agent.** It produces the same three-task plan for every
  request: pre-execution validation, the operation itself, and
  post-execution validation. It also pre-checks requests and produces the
  step lists of planning tasks.
* **Validator agent.** It checks a request before execution: the target id,
  the update parameters and the credit limit. It checks a result after
  execution.
* **Executor agent.** It applies the four operations to the table inside a
  session. A success is committed; a failure is rolled back.
* **Shared context store.** It holds a per-workflow log of actions and a
  metadata map.
* **Agent base.** Every agent has an id, a busy/idle flag and a message
  history, and stamps each message it creates with the workflow's context.
* **Workflow and message records.** The model includes their defaults and
  their pydantic bounds.

Python's dynamically typed dictionaries become the `Value`/`Dict` types of
`values.dfy`. That file also holds the parts of Python the core relies on:
truthiness, `dict.get`, `a or b`, `{**a, **b}`, `str`, `repr` and `float`.

A call that raises is modelled as `Err(message)`. Objects that the source
updates in place are classes with `modifies` clauses:

* the context store;
* the agents and their shared base;
* the database session;
* the engine.

The customers table is the sequence of its rows, held by `Executor.Session`.
The agents' logic is written as functions, and the methods are proved equal
to those functions. Examples: `OrchestrationEngine.RunTasks` is proved
against `RunFrom`, and `AppendTasks` against `WithDecoded`.

The values the source draws from `uuid4()` are parameters: workflow ids,
task ids, message ids, agent-id suffixes and created customer ids. The
background scheduling of an execution is returned as a flag, and the
execution itself is the separate call `ExecuteWorkflow`.

Where the code's comments and the code disagree, the model follows the code:

* **Pre-execution validation failure.** The abort sets the workflow FAILED
  and leaves the loop. The statement after the loop
  (app/orchestrator.py:260) then overwrites that with COMPLETED, keeping the
  error text. `RunFrom` and `NegativeCreditLimitBlocked` state this, and
  tests/test_validator.py accepts either status.
* **Task payloads.** In an agent's payload the workflow's context wins over
  the task's own parameters (`{**task.parameters, **workflow.context}`).
* **Post-execution validation.** It never sees a `result` key, so it always
  reports valid (`PostValidationAlwaysValid`).
* **Planning.** Planning a request always succeeds (`PlanningSucceeds`).
  Execution is scheduled even after a planning failure.

## Model

| member | source | states |
|---|---|---|
| Values.Merge | app/orchestrator.py:205 | `{**a, **b}` holds the keys of both; the overlay's value wins on every key it holds; the base's value remains elsewhere |
| WorkflowModels.ParseWorkflowStatus | app/models/workflow.py:12-18 | a parsed status is the member whose value is the string |
| WorkflowModels.WorkflowStatusValues | app/models/workflow.py:12-18 | every status round-trips through its value; exactly the five values parse |
| WorkflowModels.ParseAgentType | app/models/workflow.py:21-25 | a parsed agent type is the member whose value is the string |
| WorkflowModels.AgentTypeValues | app/models/workflow.py:21-25 | every agent type round-trips through its value; exactly "planner", "executor", "validator" parse |
| WorkflowModels.NewTask | app/models/workflow.py:36-48 | a task built from its required fields is pending, priority 1, with empty parameters, no result and no error |
| WorkflowModels.CheckPriority | app/models/workflow.py:42 | a priority is accepted exactly when it is a whole number in 1..10, and keeps its value |
| WorkflowModels.NewWorkflowState | app/models/workflow.py:51-63 | a new workflow is pending, with no tasks, cursor 0 and no error, holding the given id, name, description and context |
| WorkflowModels.NewWorkflowRequest | app/models/workflow.py:92-98 | a request without optional fields has no description, no target and empty parameters |
| MessageModels.ParseMessageType | app/models/message.py:12-18 | a parsed message type is the member whose value is the string |
| MessageModels.MessageTypeValues | app/models/message.py:12-18 | every message type round-trips through its value; exactly the five values parse |
| MessageModels.NewMessage | app/models/message.py:29-64 | a message built from its required fields is pending, medium priority, broadcast, with empty payload and metadata |
| MessageModels.Answer | app/agents/planner_agent.py:39-50 | an answer echoes the message id; it succeeds exactly when the handler returned, carrying its result; otherwise it carries the error text |
| Memory.Updated | app/memory/context_store.py:44-54 | a truthy action is appended to the log, anything else leaves it; the metadata gains the new keys and the new values win |
| Memory.NoMetadataKeepsMetadata | app/memory/context_store.py:53-54 | an update without metadata leaves the metadata map unchanged |
| Memory.RecordedActions | app/memory/context_store.py:51-52 | the recorded actions are as many as the truthy `action` arguments, each non-empty |
| Memory.ActionLogCounts | app/memory/context_store.py:51-52 | after a series of updates the log is the old log followed by exactly the truthy actions, in call order, one entry each |
| Memory.UpdatedAllSnoc | app/memory/context_store.py:37-54 | a series of updates is the series without its last update, followed by that update |
| Memory.MetadataLastWriteWins | app/memory/context_store.py:37-54 | after a series of updates a metadata key holds the value of the last update that set it, or its old value when none did |
| Memory.ContextStore.constructor | app/memory/context_store.py:14-16 | the store starts empty |
| Memory.ContextStore.CreateWorkflowContext | app/memory/context_store.py:18-27 | the new id maps to an empty entry; every other entry is unchanged |
| Memory.ContextStore.GetContext | app/memory/context_store.py:29-35 | the stored entry, or an empty entry for an unknown id |
| Memory.ContextStore.UpdateContext | app/memory/context_store.py:37-54 | only the entry of the given id changes; it becomes `Updated` of the entry before the call (an empty one if absent) |
| Memory.ContextStore.ResetContext | app/memory/context_store.py:56-64 | an existing entry is emptied; an unknown id leaves the store unchanged |
| Memory.ContextStore.ListWorkflows | app/memory/context_store.py:66-69 | the listed ids are exactly the stored ids |
| Agents.AgentIdShape | app/agents/base_agent.py:26 | a given non-empty id is kept; otherwise the id is the type's value, `_`, and eight hex digits of the uuid |
| Agents.Validation | app/agents/validator_agent.py:69-88 | the result is valid exactly when no error was appended, and its errors are exactly the appended texts |
| Agents.Snapshot | app/agents/base_agent.py:64-70 | a message's context is the stored action log, and the stored metadata overridden by the call's metadata |
| Agents.SnapshotPrecedesUpdate | app/agents/base_agent.py:64-89 | the snapshot is taken before the store is updated: the new log is the snapshot's log plus the action, and the stored metadata equals the snapshot's |
| Agents.BaseAgent.constructor | app/agents/base_agent.py:25-30 | a new agent is idle, with no history, the shared store, and its derived id |
| Agents.BaseAgent.CreateMessage | app/agents/base_agent.py:48-94 | the message carries the pre-call snapshot and the agent as sender; the store records the action and metadata; the history grows by exactly this message |
| Planner.EncodeTasks | app/agents/planner_agent.py:88-127 | one task definition per task |
| Planner.PlannedTasks | app/agents/planner_agent.py:88-127 | the plan is validator, executor, validator with priorities 1, 2, 3, all pending; the validators carry pre/post-execution types; the executor's parameters are the operation overlaid by the request's parameters |
| Planner.PlanWorkflow | app/agents/planner_agent.py:81-133 | succeeds exactly when the parameters are a dict; the definitions encode the three planned tasks; the estimate is 15 seconds; the result holds exactly `tasks`, `estimated_duration` and `complexity` "medium" |
| Planner.ValidateRequest | app/agents/planner_agent.py:135-155 | valid exactly when there is no error; "requires parameters" exactly for an update with falsy parameters; "Customer ID required" exactly for an update/delete without a truthy target; no other errors |
| Planner.PlanSteps | app/agents/planner_agent.py:157-235 | every operation's plan has three steps numbered 1, 2, 3 |
| Planner.TaskOutcome | app/agents/planner_agent.py:52-79 | succeeds exactly when the operation is one of the four; a success holds exactly `status` "success", the three steps of the requested operation's plan, and the message "Generated plan for <operation> operation" |
| Planner.ProcessMessage | app/agents/planner_agent.py:27-50 | echoes the message id; "validate_request" always succeeds with the check's result; "plan_workflow" succeeds exactly when planning does, carrying the plan, and otherwise carries planning's error; other actions fail with "Unknown action" |
| Planner.PlannerAgent.constructor | app/agents/planner_agent.py:23-25 | a new planner is an idle planner-typed agent with no history |
| Planner.PlannerAgent.ExecuteTask | app/agents/planner_agent.py:52-79 | the result is `TaskOutcome`, and the agent is idle again on every exit path |
| Validator.CreditLimitErrors | app/agents/validator_agent.py:80-88 | at most one error: "cannot be negative" exactly for a present limit that parses as a negative number; "must be a number" exactly for a present limit that does not parse, including an integer too large in magnitude for a float |
| Validator.RequestErrors | app/agents/validator_agent.py:69-88 | each of the four error texts is appended exactly under its condition, and no other text is |
| Validator.ValidateRequest | app/agents/validator_agent.py:63-90 | raises exactly when the parameters are not a dict; otherwise valid exactly when there is no error, with each of the four errors present exactly under its condition and no other error |
| Validator.ValidateResult | app/agents/validator_agent.py:92-103 | invalid exactly when the result is a dict whose `success` is False; its single error is the result's error or the fixed text |
| Validator.Wrapped | app/agents/validator_agent.py:58 | the envelope holds exactly `status` "success" and `result`, the validation dictionary |
| Validator.TaskOutcome | app/agents/validator_agent.py:41-61 | pre-execution runs the request check, post-execution the result check, any other type is valid; parameters that are not a dict raise |
| Validator.ProcessMessage | app/agents/validator_agent.py:25-39 | echoes the message id; "validate_request" succeeds exactly when the check does, carrying its validation dictionary, and otherwise carries the raised error; "validate_result" always succeeds; other actions fail with "Unknown action" |
| Validator.ValidatorAgent.constructor | app/agents/validator_agent.py:21-23 | a new validator is an idle validator-typed agent with no history |
| Validator.ValidatorAgent.ExecuteTask | app/agents/validator_agent.py:41-61 | the result is `TaskOutcome`, and the agent is idle again on every exit path |
| Executor.Find | app/agents/executor_agent.py:239-244 | the index of the first row with the key, or -1 exactly when no row has it |
| Executor.NewCustomer | app/agents/executor_agent.py:118-138 | a created row has the new id and every column: the request's value for plain columns, its value or "" for the dates, its non-`None` value or the column default (0.0, "active", "Basic") for credit limit, status and plan, zero for the counters |
| Executor.Create | app/agents/executor_agent.py:111-153 | succeeds exactly when every value binds, name and email are given and the id is new; a list or dict outside `data` fails with the bind error; the table then gains exactly the new row at its end |
| Executor.NewCustomerWellFormed | app/agents/executor_agent.py:118-141 | a created row satisfies the NOT NULL columns and holds the request's name and email |
| Executor.UpdateData | app/agents/executor_agent.py:163-177 | a key is in the update data exactly when it is a valid column, not a control key, and its parameter is not `None`; its value is the parameter's |
| Executor.InOrder | app/agents/executor_agent.py:199 | the listed fields are exactly the columns present in the update data |
| Executor.UpdatedFields | app/agents/executor_agent.py:199 | the listed fields are exactly the update data's keys |
| Executor.Updated | app/agents/executor_agent.py:183-201 | a successful update's table is `UpdateRows`; its result is exactly `operation` "update", the `customer_id`, `updated_fields` listing exactly the update data's keys, and `success` True |
| Executor.Update | app/agents/executor_agent.py:155-204 | no target: "ID is required"; no data: "No update data"; a list or dict outside `data`: the bind error; otherwise succeeds exactly when a row has the key ("not found" if not); the result is exactly `operation`, `customer_id`, `updated_fields` (exactly the update data's keys) and `success` True |
| Executor.Without | app/agents/executor_agent.py:214 | what remains are rows of the table, none with the key |
| Executor.Delete | app/agents/executor_agent.py:206-230 | no target: "ID is required"; otherwise succeeds exactly when a row has the key, and the table loses the matching rows |
| Executor.Query | app/agents/executor_agent.py:232-280 | by id: the matching row's eight fields, or "not found"; without id: the first ten rows' summaries and their count |
| Executor.Operation | app/agents/executor_agent.py:93-109 | an unknown operation raises "Unknown operation"; non-dict parameters raise; create, update and delete are exactly `Create`, `Update` and `Delete`; a query has `Query`'s outcome and leaves the table |
| Executor.SuccessEnvelope | app/agents/executor_agent.py:83-87 | the envelope holds exactly `status` "success", the operation's `result`, and the message "Successfully executed <operation> operation" |
| Executor.TaskRun | app/agents/executor_agent.py:59-91 | non-dict parameters raise before dispatch; otherwise the operation's outcome, with a success wrapped in the envelope and its table kept |
| Executor.WithoutNoMatch | app/agents/executor_agent.py:214-219 | a delete whose key matches no row leaves the table unchanged |
| Executor.WithoutRemovesOne | app/agents/executor_agent.py:214 | with unique ids, a delete removes exactly the matching row and keeps the rest in order |
| Executor.UpdateRewritesOne | app/agents/executor_agent.py:183-189 | with unique ids, an update rewrites exactly the matching row, and only the columns in the update data |
| Executor.WithoutKeepsTable | app/database.py:23-25 | a delete keeps ids unique, every row complete, and the NOT NULL columns set |
| Executor.CreateKeepsTable | app/database.py:23-25 | a committed create keeps ids unique, every row complete, and the NOT NULL columns set |
| Executor.UpdateRowsKeepTable | app/database.py:23-25 | an update with non-null column data keeps ids unique, every row complete, and the NOT NULL columns set |
| Executor.OperationKeepsTable | app/database.py:23-25 | every committed operation preserves the table's schema guarantees |
| Executor.Session.constructor | app/database.py:19-42 | a session over the given rows |
| Executor.ExecutorAgent.constructor | app/agents/executor_agent.py:27-30 | a new executor is idle, with no history and no session |
| Executor.ExecutorAgent.SetDbSession | app/agents/executor_agent.py:32-34 | the session is the given one |
| Executor.ExecutorAgent.Run | app/agents/executor_agent.py:140-153 | the result is the operation's outcome; the table is committed on success and unchanged after a rollback; a well-formed table stays well formed |
| Executor.ExecutorAgent.ExecuteOperation | app/agents/executor_agent.py:93-109 | without a session every operation raises; with one, the operation's outcome and committed table |
| Executor.ExecutorAgent.ExecuteTask | app/agents/executor_agent.py:59-91 | without a session "Database session not set"; otherwise `TaskRun`'s outcome and committed table; idle on every exit path |
| Executor.ExecutorAgent.ProcessMessage | app/agents/executor_agent.py:36-57 | echoes the message id; an unknown action fails and leaves the table alone; "execute_operation" without a session fails with the no-session error; with one it succeeds exactly when the operation does, carrying the operation's result or its error, and the table is the committed one |
| Orchestrator.Rejection | app/orchestrator.py:57-63 | the capacity rejection is FAILED, with no workflow id, no task and zero progress |
| Orchestrator.AsDeclared | app/models/workflow.py:115-121 | pydantic accepts a response exactly when it has a string id and progress within 0..100 |
| Orchestrator.RejectionRaisesAsWritten | app/orchestrator.py:57-63 | building the rejection with the declared response type raises |
| Orchestrator.RequestContext | app/orchestrator.py:69-73 | a new workflow's context holds exactly the request's operation, target and parameters |
| Orchestrator.Accepted | app/orchestrator.py:87-93 | the response to an accepted request is well formed, with the workflow's id and status, its first task, and zero progress |
| Orchestrator.PlanRequest | app/orchestrator.py:132-145 | the planner is sent "plan_workflow" with the context's operation, target and parameters |
| Orchestrator.TaskDefinitions | app/orchestrator.py:150-154 | a failed planner response raises; a successful one with a task list yields that list |
| Orchestrator.DecodeTask | app/orchestrator.py:156-163 | a decoded task is pending with no result or error, and keeps the definition's id and agent type |
| Orchestrator.DecodeEncodedTask | app/orchestrator.py:156-163 | decoding the planner's encoding of a task gives back the task, reset to pending |
| Orchestrator.AppendDecoded | app/orchestrator.py:155-164 | decoding only appends to the existing tasks, and appends one task per definition when no error stops it |
| Orchestrator.DecodeEncodedTasks | app/orchestrator.py:155-164 | decoding the planner's definitions of pending tasks appends exactly those tasks, in order, with no error |
| Orchestrator.WithDecoded | app/orchestrator.py:155-171 | only tasks, status and error change; the workflow ends PENDING with one task per definition, or FAILED with an error, keeping the earlier tasks as a prefix |
| Orchestrator.Planned | app/orchestrator.py:124-171 | planning changes only tasks, status and error; it ends PENDING with the old error, or FAILED with an error, keeping the earlier tasks as a prefix |
| Orchestrator.AgentPayload | app/orchestrator.py:203-216 | every agent receives the task's parameters overlaid by the workflow's context |
| Orchestrator.Step | app/orchestrator.py:200-221 | a planner task has the planner's outcome and a validator task the validator's, both leaving the table; an executor task has the executor's outcome and the committed table; only a successful executor task changes the table |
| Orchestrator.RunFromOutcome | app/orchestrator.py:193-257 | a run changes only tasks, cursor, status and error. It completes every task up to the cursor. It ends FAILED with the cursor's task failed with the same error, or COMPLETED, either after a failed pre-validation at the cursor or with all tasks completed and the error kept |
| Orchestrator.ExecutionEnds | app/orchestrator.py:181-268 | execution always ends FAILED or COMPLETED, with a valid cursor and the same workflow id |
| Orchestrator.EmptyWorkflowCompletes | app/orchestrator.py:193-262 | a workflow without tasks ends COMPLETED with its error kept and the table unchanged |
| Orchestrator.PlannerAnswers | app/orchestrator.py:132-154 | for dict parameters, the planner's answer yields the definitions of the three planned tasks |
| Orchestrator.PlanningSucceeds | app/orchestrator.py:65-82 | every request is planned: PENDING, no error, cursor 0, the request's context, exactly the three planned tasks |
| Orchestrator.PreValidationSeesRequest | app/orchestrator.py:212-216 | the pre-execution validator sees the request's operation, parameters and target, and no `customer_id` |
| Orchestrator.PostValidationAlwaysValid | app/orchestrator.py:212-216 | the post-execution validator of a planned workflow always reports valid |
| Orchestrator.ExecutorSeesRequest | app/orchestrator.py:207-211 | the executor runs the request's operation, writes the same columns the request's parameters name, and targets the request's target or else its `customer_id` |
| Orchestrator.CountCompleted | app/orchestrator.py:106-109 | the count is at most the number of tasks; it equals it exactly when all are completed, and is 0 exactly when none is |
| Orchestrator.Percentage | app/orchestrator.py:110 | a completed fraction in percent lies in 0..100, is 100 exactly when all are completed and 0 exactly when none is |
| Orchestrator.Progress | app/orchestrator.py:103-110 | progress lies in 0..100; it is 100 exactly when there are tasks and all completed, and 0 exactly when none completed |
| Orchestrator.Summary | app/orchestrator.py:273-280 | a listing entry holds exactly the workflow's id, name and status value, its number of tasks and of completed tasks; the completed count never exceeds the total and equals it exactly when every task completed |
| Orchestrator.AppendTasks | app/orchestrator.py:155-164 | the loop's result is `WithDecoded` of the definitions, and the workflow stays well formed |
| Orchestrator.OrchestrationEngine.constructor | app/orchestrator.py:31-36 | the engine starts with no workflows, three fresh agents, and an executor without a session |
| Orchestrator.OrchestrationEngine.CreateWorkflow | app/orchestrator.py:44-93 | at capacity: the rejection, nothing stored, nothing scheduled; otherwise the new workflow is stored planned, scheduled, and answered; the table stays valid |
| Orchestrator.OrchestrationEngine.PlanWorkflow | app/orchestrator.py:124-171 | only the planned workflow's entry changes, to the planner's tasks appended to it (or FAILED) |
| Orchestrator.OrchestrationEngine.AppendPlannedTasks | app/orchestrator.py:150-171 | only the workflow's entry changes, to `Planned` of the planner's response |
| Orchestrator.OrchestrationEngine.ExecuteWorkflow | app/orchestrator.py:181-268 | only the workflow's entry changes, to `Execute` of the stored workflow; the table becomes the run's table and stays well formed |
| Orchestrator.OrchestrationEngine.RunTasks | app/orchestrator.py:193-262 | the loop's workflow and table are exactly `RunFrom` from the first task |
| Orchestrator.OrchestrationEngine.RouteTask | app/orchestrator.py:200-221 | the routed agent's outcome and table are exactly `Step` |
| Orchestrator.OrchestrationEngine.GetWorkflowStatus | app/orchestrator.py:95-122 | nothing exactly for an unknown id; otherwise the workflow's id, status, `Progress` and the task under the cursor |
| Orchestrator.OrchestrationEngine.ListWorkflows | app/orchestrator.py:270-282 | exactly one summary per stored workflow |
| Scenarios.FirstTaskBlocks | app/orchestrator.py:223-262 | whatever the agents do, a failed pre-validation at the first task stops the run there: COMPLETED with an error, the cursor on it, later tasks untouched |
| Scenarios.PreValidationStep | app/orchestrator.py:212-216 | a pre-execution validator step leaves the table and returns its check wrapped as a success |
| Scenarios.WrappedReport | app/agents/validator_agent.py:58 | a task holding a wrapped validation result reports its `valid` flag and error list |
| Scenarios.WrappedRejection | app/orchestrator.py:224-232 | a pre-execution validator task with an invalid report counts as a failed pre-validation |
| Scenarios.NegativeCreditLimitInvalid | app/agents/validator_agent.py:80-85 | a negative numeric credit limit within the float range makes the request invalid with "credit_limit cannot be negative" |
| Scenarios.HugeCreditLimitNotNumber | app/agents/validator_agent.py:80-88 | an integer credit limit too large in magnitude for a float makes `float()` raise: the request is invalid with "must be a number", not "cannot be negative" |
| Scenarios.PreValidationRejects | app/orchestrator.py:223-241 | for an update with a negative credit limit within the float range, the first planned task is the pre-execution validator and it rejects the request |
| Scenarios.RejectedRun | app/orchestrator.py:223-262 | a run whose first task rejects the request leaves the table unchanged and ends COMPLETED with the report on the failed task |
| Scenarios.NegativeCreditLimitBlocked | tests/test_validator.py:6-37 | an update with a negative credit limit within the float range never reaches the executor: table unchanged, COMPLETED with an error, the cursor on the failed validator whose report is invalid and names the negative credit limit |
| Scenarios.WrappedAcceptance | app/orchestrator.py:224-232 | a valid wrapped report never counts as a failed pre-validation |
| Scenarios.StepCompletes | app/orchestrator.py:221-248 | a step whose result is not a failed pre-validation completes its task and the loop goes on to the next with the step's table |
| Scenarios.UpdateRequestValid | app/agents/validator_agent.py:63-90 | an update with a truthy target, non-empty parameters and a credit limit that is absent or converts to a non-negative float passes the request check |
| Scenarios.PostValidationStep | app/orchestrator.py:212-216 | a post-execution validator step leaves the table and returns the result check wrapped as a success |
| Scenarios.UpdateStep | app/orchestrator.py:207-211 | an executor step on an update with a present target and binding data succeeds and leaves the table with that row rewritten |
| Scenarios.UpdateCanGoThrough | app/agents/executor_agent.py:155-204 | the premises of a successful update can be met: a new credit limit for the only customer of a one-row table |
| Scenarios.UpdatePassesPreValidation | app/agents/validator_agent.py:63-90 | the planned pre-execution validator passes an update with a target, data and a non-negative or absent credit limit |
| Scenarios.UpdateExecutes | app/agents/executor_agent.py:155-204 | the planned executor task of such an update rewrites the target's row |
| Scenarios.UpdatePassesPostValidation | app/agents/validator_agent.py:92-103 | the planned post-execution validator always passes and leaves the table |
| Scenarios.ThreeStepsComplete | app/orchestrator.py:193-262 | three tasks that each return a non-failing result all complete; the run ends COMPLETED with the last step's table and the error kept |
| Scenarios.UpdateCompletes | app/orchestrator.py:193-262 | an update of an existing customer with a target, binding data and a credit limit that is absent or converts to a non-negative float (so not an integer beyond the float range) completes all three tasks, ends COMPLETED with the error kept, and rewrites exactly the target's row with the update data |

## Left out

- Timestamps (`created_at`, `started_at`, `completed_at`, `updated_at`, message times), logging and `print` are not modelled.
- `uuid4()` is not modelled: every generated id is a parameter.
- The context store's lock, `asyncio`, and the background task are not modelled. Each call is one sequential step, and execution is a separate call.
- A `get_workflow_status` during a run is not modelled. Planning and execution mutate the stored workflow in place, and the model writes the workflow back when the step ends.
- `str`/`repr` of numbers with a fraction and of dicts are fixed placeholders, and the texts of raised errors are simplified. This covers SQL constraint and binding errors, decoding errors and pydantic messages.
- Column types are not enforced beyond binding. A list or dict outside the JSON `data` column fails to bind, as with sqlite3. SQLAlchemy's conversion of a string for a `Float` or `Integer` column, and integers beyond 64 bits in a column, are not modelled.
- Values.ToFloat: an integer within the float range keeps its exact value rather than rounding to the nearest double. The rounding never changes the sign, so the credit-limit check is unaffected. An integer beyond the range makes the conversion fail, as `OverflowError` does.
- Orchestrator.Progress: is an exact rational, while the source computes a binary float. One task of three gives 100/3 in the model and 33.33333333333333 in the source.
- `float(x)` on strings accepts plain decimal numerals only. Exponents, `inf`, `nan`, underscores and surrounding whitespace are not parsed.
- Dict order is not modelled. `updated_fields` are listed in column order rather than in the parameters' order, and `list_workflows` of the engine and of the context store are a map and a set rather than lists.
- SQLite type affinity is not modelled: a row key matches only a string id equal to it.
- The JSON `data` column's handling of `None` is not modelled, and the `updated_at` trigger is dropped.
- `_plan_workflow` treats a `tasks` value that is not a list as not iterable. A string or dict there would be iterated by Python; that case is not modelled.
- The simulated branch for unknown agent types (app/orchestrator.py:217-219) is unreachable, because `AgentType` has three members.
- `ContextData` is not defined in app/models/message.py, and `AgentMessage` has no `context` field. The model gives the message the snapshot that `create_message` builds, as if both existed.
- The planner, executor and validator constructors pass their `agent_id` into the base's `context_store` slot. The model passes the shared store and the id to the base separately. The engine creates its agents without ids, so every agent id is generated either way.
- WorkflowModels.CheckPriority: does not accept the numeric strings and booleans that pydantic's lax mode would coerce to an integer.
- Agents.SnapshotPrecedesUpdate: assumes that pydantic copies the action list into the snapshot, as it does when validating a `List[str]` field.
- The HTTP API (`main.py`), CSV loading (`load_csv_data`), the `WorkflowDB` table and the customer pydantic models are outside the modelled core.
- Orchestrator.RunFrom takes how one task is carried out as a parameter (`step`). The engine always passes `Step`; the other instances serve only to state `FirstTaskBlocks` and `ThreeStepsComplete` generically.

## Findings

| source | as written | input that shows it | evidently intended | confidence | as-written member | corrected member |
|---|---|---|---|---|---|---|
| app/orchestrator.py:57-63 | the capacity rejection builds `WorkflowResponse(workflow_id=None, ...)` while `workflow_id` is declared `str` (app/models/workflow.py:117), so pydantic raises and `create_workflow` raises instead of answering | any `create_workflow` call while five workflows are pending or running | a FAILED response without a workflow id and with zero progress | not executed | Orchestrator.RejectionRaisesAsWritten | Orchestrator.Rejection |
