/**
 * The validator agent (app/agents/validator_agent.py): pure checks of a
 * request before execution and of a result after it, dispatched on the
 * task's `validation_type`.
 */
module Validator {
  import opened Values
  import opened WorkflowModels
  import opened MessageModels
  import opened Memory
  import opened Agents

  const MissingTarget := "Missing target_customer_id for update/delete operation"
  const UpdateNeedsParameters := "Update operation requires parameters"
  const NegativeCreditLimit := "credit_limit cannot be negative"
  const CreditLimitNotNumber := "credit_limit must be a number"
  const ExecutionFailure := "Execution reported failure"

  /** The error a present `credit_limit` contributes: negative, or not a number. */
  function CreditLimitErrors(creditLimit: Value): (errors: seq<string>)
    ensures |errors| <= 1
    ensures creditLimit == Null ==> errors == []
    ensures errors == [NegativeCreditLimit] <==> creditLimit != Null && ToFloat(creditLimit).Some? && ToFloat(creditLimit).value < 0.0
    ensures errors == [CreditLimitNotNumber] <==> creditLimit != Null && ToFloat(creditLimit).None?
  {
    if creditLimit == Null then []
    else match ToFloat(creditLimit)
      case Some(x) => if x < 0.0 then [NegativeCreditLimit] else []
      case None => [CreditLimitNotNumber]
  }

  /**
   * The errors `_validate_request` appends, in order: a missing target for
   * update and delete, missing parameters for update, and the credit-limit
   * error. Each is present exactly under its condition, and there are no
   * others.
   */
  function RequestErrors(operation: Value, target: Value, parameters: Dict): (errors: seq<string>)
    ensures MissingTarget in errors <==> (operation == Str("update") || operation == Str("delete")) && !Truthy(target)
    ensures UpdateNeedsParameters in errors <==> operation == Str("update") && parameters == map[]
    ensures var creditLimit := Get(parameters, "credit_limit");
            (NegativeCreditLimit in errors <==> creditLimit != Null && ToFloat(creditLimit).Some? && ToFloat(creditLimit).value < 0.0) &&
            (CreditLimitNotNumber in errors <==> creditLimit != Null && ToFloat(creditLimit).None?)
    ensures forall e :: e in errors ==>
              e == MissingTarget || e == UpdateNeedsParameters || e == NegativeCreditLimit || e == CreditLimitNotNumber
  {
    var e1 := if (operation == Str("update") || operation == Str("delete")) && !Truthy(target) then [MissingTarget] else [];
    var e2 := if operation == Str("update") && !Truthy(Object(parameters)) then [UpdateNeedsParameters] else [];
    var e3 := CreditLimitErrors(Get(parameters, "credit_limit"));
    assert |MissingTarget| != |UpdateNeedsParameters| && |MissingTarget| != |NegativeCreditLimit|;
    assert |MissingTarget| != |CreditLimitNotNumber| && |UpdateNeedsParameters| != |NegativeCreditLimit|;
    assert |UpdateNeedsParameters| != |CreditLimitNotNumber| && |NegativeCreditLimit| != |CreditLimitNotNumber|;
    var errors := e1 + e2 + e3;
    assert MissingTarget in errors <==> e1 != [];
    assert UpdateNeedsParameters in errors <==> e2 != [];
    assert NegativeCreditLimit in errors <==> e3 == [NegativeCreditLimit];
    assert CreditLimitNotNumber in errors <==> e3 == [CreditLimitNotNumber];
    errors
  }

  /**
   * `_validate_request`: update and delete need a target id, update needs
   * parameters, a present credit limit must parse as a non-negative number.
   * Parameters that are not a dict make the credit-limit lookup raise.
   */
  function ValidateRequest(payload: Dict): (r: Result<ValidationResult>)
    ensures r.Err? <==> !GetOr(payload, "parameters", Object(map[])).Object?
    ensures r.Ok? ==> (r.value.valid <==> r.value.errors == []) && r.value.warnings == []
    ensures r.Ok? ==>
            var operation := Get(payload, "operation");
            (Str(MissingTarget) in r.value.errors <==>
              (operation == Str("update") || operation == Str("delete")) && !Truthy(TargetOf(payload)))
    ensures r.Ok? ==>
            var parameters := GetOr(payload, "parameters", Object(map[]));
            (Str(UpdateNeedsParameters) in r.value.errors <==>
              Get(payload, "operation") == Str("update") && parameters.fields == map[])
    ensures r.Ok? ==>
            var creditLimit := Get(GetOr(payload, "parameters", Object(map[])).fields, "credit_limit");
            (Str(NegativeCreditLimit) in r.value.errors <==>
              creditLimit != Null && ToFloat(creditLimit).Some? && ToFloat(creditLimit).value < 0.0) &&
            (Str(CreditLimitNotNumber) in r.value.errors <==>
              creditLimit != Null && ToFloat(creditLimit).None?)
    ensures r.Ok? ==> forall e :: e in r.value.errors ==>
              e == Str(MissingTarget) || e == Str(UpdateNeedsParameters) ||
              e == Str(NegativeCreditLimit) || e == Str(CreditLimitNotNumber)
  {
    var parameters := GetOr(payload, "parameters", Object(map[]));
    if !parameters.Object? then Err(NoGetError(parameters))
    else Ok(Validation(RequestErrors(Get(payload, "operation"), TargetOf(payload), parameters.fields)))
  }

  /**
   * `_validate_result`: invalid exactly when the payload's result is a dict
   * whose `success` is `False`; its error, or a fixed text, is the one error.
   */
  function ValidateResult(payload: Dict): (r: ValidationResult)
    ensures var result := Or(Get(payload, "result"), Object(map[]));
            !r.valid <==> result.Object? && Get(result.fields, "success") == Bool(false)
    ensures r.valid <==> r.errors == []
    ensures !r.valid ==> r.errors == [Or(Get(Or(Get(payload, "result"), Object(map[])).fields, "error"), Str(ExecutionFailure))]
    ensures r.warnings == []
  {
    var result := Or(Get(payload, "result"), Object(map[]));
    if result.Object? && Get(result.fields, "success") == Bool(false) then
      ValidationResult(false, [Or(Get(result.fields, "error"), Str(ExecutionFailure))], [])
    else
      ValidationResult(true, [], [])
  }

  /** `params.get("validation_type") or params.get("type")` */
  function ValidationType(parameters: Dict): Value {
    Or(Get(parameters, "validation_type"), Get(parameters, "type"))
  }

  /** `{"status": "success", "result": r}` */
  function Wrapped(r: ValidationResult): (d: Dict)
    ensures "result" in d && d["result"] == Object(r.ToDict())
    ensures "status" in d && d["status"] == Str("success")
    ensures d.Keys == {"status", "result"}
  {
    map["status" := Str("success"), "result" := Object(r.ToDict())]
  }

  /**
   * The outcome of `execute_task`: the request check for "pre_execution", the
   * result check for "post_execution", and a valid empty result for any other
   * validation type, wrapped as a success.
   */
  function TaskOutcome(task: Dict): (r: Result<Dict>)
    ensures var parameters := GetOr(task, "parameters", Object(map[]));
            parameters.Object? && ValidationType(parameters.fields) == Str("pre_execution") ==>
              (r.Ok? <==> ValidateRequest(parameters.fields).Ok?) &&
              (r.Ok? ==> r.value == Wrapped(ValidateRequest(parameters.fields).value))
    ensures var parameters := GetOr(task, "parameters", Object(map[]));
            parameters.Object? && ValidationType(parameters.fields) == Str("post_execution") ==>
              r == Ok(Wrapped(ValidateResult(parameters.fields)))
    ensures var parameters := GetOr(task, "parameters", Object(map[]));
            parameters.Object? && ValidationType(parameters.fields) != Str("pre_execution") &&
            ValidationType(parameters.fields) != Str("post_execution") ==>
              r == Ok(Wrapped(ValidationResult(true, [], [])))
    ensures !GetOr(task, "parameters", Object(map[])).Object? ==> r.Err?
  {
    var parameters := GetOr(task, "parameters", Object(map[]));
    if !parameters.Object? then Err(NoGetError(parameters))
    else
      var params := parameters.fields;
      var validationType := ValidationType(params);
      // `{**task.get('parameters', {}), **params}` spreads the same dict twice
      var payload := Merge(params, params);
      assert payload == params;
      if validationType == Str("pre_execution") then
        match ValidateRequest(payload)
        case Ok(v) => Ok(Wrapped(v))
        case Err(e) => Err(e)
      else if validationType == Str("post_execution") then
        Ok(Wrapped(ValidateResult(payload)))
      else
        Ok(Wrapped(ValidationResult(true, [], [])))
  }

  /**
   * `process_message`: "validate_request" and "validate_result" are handled,
   * any other action is answered with an error; every answer echoes the
   * message id.
   */
  function ProcessMessage(message: AgentMessage): (r: MessageResponse)
    ensures r.messageId == message.messageId
    ensures message.action == "validate_request" ==>
              var check := ValidateRequest(message.payload);
              (r.success <==> check.Ok?) && (check.Ok? ==> r.result == Some(check.value.ToDict()) && r.error == None) &&
              (check.Err? ==> r.result == None && r.error == Some(check.error))
    ensures message.action == "validate_result" ==> r.success && r.result == Some(ValidateResult(message.payload).ToDict())
    ensures message.action != "validate_request" && message.action != "validate_result" ==>
              !r.success && r.error == Some("Unknown action: " + message.action)
  {
    var outcome :=
      if message.action == "validate_request" then
        match ValidateRequest(message.payload)
        case Ok(v) => Ok(v.ToDict())
        case Err(e) => Err(e)
      else if message.action == "validate_result" then Ok(ValidateResult(message.payload).ToDict())
      else Err("Unknown action: " + message.action);
    Answer(message, outcome)
  }

  class ValidatorAgent {
    const agent: BaseAgent

    constructor (contextStore: ContextStore, agentId: Option<string>, uuidHex: string)
      ensures fresh(agent) && agent.agentType == Validator && agent.status == Idle && agent.messageHistory == []
      ensures agent.agentId == AgentIdFor(Validator, agentId, uuidHex)
    {
      agent := new BaseAgent(Validator, contextStore, agentId, uuidHex);
    }

    /** `execute_task`: busy while validating, idle again on every exit path. */
    method ExecuteTask(task: Dict) returns (r: Result<Dict>)
      modifies agent`status
      ensures r == TaskOutcome(task)
      ensures agent.status == Idle
    {
      agent.status := Busy;
      r := TaskOutcome(task);
      agent.status := Idle;
    }
  }
}
