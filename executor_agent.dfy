/**
 * The executor agent (app/agents/executor_agent.py): create, update, delete
 * and query customers in the `customers` table (app/database.py), with a
 * rollback on failure. The table is the ordered sequence of its rows; the
 * database session is an object holding that sequence. The id of a created
 * customer is supplied in place of `CUST` + six hex digits of `uuid4()`.
 */
module Executor {
  import opened Values
  import opened WorkflowModels
  import opened MessageModels
  import opened Memory
  import opened Agents

  /** One row of `customers`: its primary key `mcp_id` and its other columns. */
  datatype Customer = Customer(mcpId: string, columns: Dict)

  /** The columns of `CustomerDB` other than `mcp_id` and `updated_at`, in declaration order. */
  const ColumnOrder: seq<string> :=
    ["customer_name", "email", "phone", "credit_limit", "kyc_date", "status", "region", "industry",
     "country", "zip_code", "subscription_plan", "signup_date", "last_login", "total_transactions",
     "total_spent", "preferred_category", "loyalty_points", "data"]

  /** `valid_columns`: the columns an update may set. */
  const ValidColumns: set<string> :=
    {"customer_name", "email", "phone", "credit_limit", "kyc_date", "status", "region", "industry",
     "country", "zip_code", "subscription_plan", "signup_date", "last_login", "total_transactions",
     "total_spent", "preferred_category", "loyalty_points", "data"}

  /** The request keys that an update never writes to a column. */
  const ControlKeys: set<string> := {"operation", "target_customer_id", "customer_id", "parameters"}

  /** How a row is compared with a requested id: `CustomerDB.mcp_id == customer_id`. */
  function KeyOf(c: Customer): Value {
    Str(c.mcpId)
  }

  /** The first row whose key is `key`, or -1. */
  function Find(rows: seq<Customer>, key: Value): (i: int)
    ensures -1 <= i < |rows|
    ensures i >= 0 ==> KeyOf(rows[i]) == key && forall j :: 0 <= j < i ==> KeyOf(rows[j]) != key
    ensures i < 0 ==> forall j :: 0 <= j < |rows| ==> KeyOf(rows[j]) != key
  {
    if rows == [] then -1
    else if KeyOf(rows[0]) == key then 0
    else
      var k := Find(rows[1..], key);
      if k < 0 then -1 else k + 1
  }

  /** `mcp_id` is the primary key. */
  predicate UniqueIds(rows: seq<Customer>) {
    forall i, j :: 0 <= i < j < |rows| ==> rows[i].mcpId != rows[j].mcpId
  }

  /** A row holds every column, and the two NOT NULL columns are set. */
  predicate WellFormedRow(c: Customer) {
    c.columns.Keys == ValidColumns && c.columns["customer_name"] != Null && c.columns["email"] != Null
  }

  /** What the table's schema guarantees of its rows. */
  predicate WellFormedTable(rows: seq<Customer>) {
    UniqueIds(rows) && forall i :: 0 <= i < |rows| ==> WellFormedRow(rows[i])
  }

  /** What an operation returns, and the table it leaves behind when committed. */
  datatype Effect = Effect(result: Dict, rows: seq<Customer>)

  // ---------------------------------------------------------------------------
  // create

  /** The columns an insert fills with the request's value, or leaves NULL without one. */
  const PlainColumns: set<string> :=
    {"customer_name", "email", "phone", "region", "industry", "country", "zip_code", "preferred_category", "data"}

  /** The date columns whose `.get` default is the empty string. */
  const DateColumns: set<string> := {"kyc_date", "signup_date", "last_login"}

  /** The columns whose `.get` default equals the column's own default. */
  const DefaultedColumns: set<string> := {"credit_limit", "status", "subscription_plan"}

  /** The counters an insert always starts at zero. */
  const CounterColumns: set<string> := {"total_transactions", "total_spent", "loyalty_points"}

  /** No column belongs to two of the four kinds. */
  lemma ColumnKindsDisjoint()
    ensures PlainColumns !! DateColumns && PlainColumns !! DefaultedColumns && PlainColumns !! CounterColumns
    ensures DateColumns !! DefaultedColumns && DateColumns !! CounterColumns && DefaultedColumns !! CounterColumns
    ensures ValidColumns == PlainColumns + DateColumns + DefaultedColumns + CounterColumns
  {
  }

  /** The column default that applies when an insert leaves a column out. */
  function ColumnDefault(column: string): Value {
    if column in CounterColumns || column == "credit_limit" then Num(0.0)
    else if column == "status" then Str("active")
    else if column == "subscription_plan" then Str("Basic")
    else Null
  }

  /**
   * The value `_create_customer` passes to `CustomerDB` for a column: zero
   * for a counter, otherwise the request's value with the `.get` default of
   * that column ("" for a date, the column default for credit limit, status
   * and plan, `None` for the rest).
   */
  function CreateAttribute(params: Dict, column: string): Value {
    if column in CounterColumns then Num(0.0)
    else if column in DateColumns then GetOr(params, column, Str(""))
    else if column in DefaultedColumns then GetOr(params, column, ColumnDefault(column))
    else Get(params, column)
  }

  /** An attribute that is `None` is left out of the INSERT statement, so the column's default applies to it. */
  function Stored(value: Value, column: string): Value {
    if value == Null then ColumnDefault(column) else value
  }

  /**
   * The row an insert stores: every column; a plain column holds the
   * request's value (NULL without one); a date holds the request's value or
   * "" when the request has no such key; credit limit, status and plan hold
   * the request's non-`None` value or their default; the counters are zero.
   */
  function NewCustomer(params: Dict, newId: string): (c: Customer)
    ensures c.mcpId == newId && c.columns.Keys == ValidColumns
    ensures forall k :: k in PlainColumns ==> c.columns[k] == Get(params, k)
    ensures forall k :: k in DateColumns ==> c.columns[k] == GetOr(params, k, Str(""))
    ensures forall k :: k in DefaultedColumns ==>
              c.columns[k] == if Get(params, k) != Null then params[k] else ColumnDefault(k)
    ensures ColumnDefault("credit_limit") == Num(0.0) && ColumnDefault("status") == Str("active") &&
            ColumnDefault("subscription_plan") == Str("Basic")
    ensures forall k :: k in CounterColumns ==> c.columns[k] == Num(0.0)
  {
    ColumnKindsDisjoint();
    Customer(newId, map k | k in ValidColumns :: Stored(CreateAttribute(params, k), k))
  }

  /**
   * The driver binds only scalars: a list or dict value for any column but
   * the JSON column `data` makes the statement fail before it runs.
   */
  predicate Unbindable(column: string, v: Value) {
    column != "data" && (v.Array? || v.Object?)
  }

  const BindError := "Error binding parameter: unsupported type"

  /** Every attribute of the row an insert would store can be bound. */
  predicate CreateBinds(params: Dict) {
    forall k :: k in ValidColumns ==> !Unbindable(k, CreateAttribute(params, k))
  }

  const NameNotNull := "NOT NULL constraint failed: customers.customer_name"
  const EmailNotNull := "NOT NULL constraint failed: customers.email"
  const IdNotUnique := "UNIQUE constraint failed: customers.mcp_id"

  /**
   * `_create_customer`: appends the new row, unless a value cannot be bound,
   * a NOT NULL column is missing or the id is already taken, which the commit
   * rejects.
   */
  function Create(params: Dict, newId: string, rows: seq<Customer>): (r: Result<Effect>)
    ensures r.Ok? <==> CreateBinds(params) && Get(params, "customer_name") != Null && Get(params, "email") != Null &&
                       Find(rows, Str(newId)) < 0
    ensures !CreateBinds(params) ==> r == Err(BindError)
    ensures r.Ok? ==> r.value.rows == rows + [NewCustomer(params, newId)]
    ensures r.Ok? ==> r.value.result == map["operation" := Str("create"), "customer_id" := Str(newId), "success" := Bool(true)]
  {
    if !CreateBinds(params) then Err(BindError)
    else if Get(params, "customer_name") == Null then Err(NameNotNull)
    else if Get(params, "email") == Null then Err(EmailNotNull)
    else if Find(rows, Str(newId)) >= 0 then Err(IdNotUnique)
    else
      Ok(Effect(map["operation" := Str("create"), "customer_id" := Str(newId), "success" := Bool(true)],
                rows + [NewCustomer(params, newId)]))
  }

  /** The NOT NULL columns of a new row are the request's own name and email, so a created row is well formed. */
  lemma NewCustomerWellFormed(params: Dict, newId: string)
    requires Get(params, "customer_name") != Null && Get(params, "email") != Null
    ensures WellFormedRow(NewCustomer(params, newId))
    ensures NewCustomer(params, newId).columns["customer_name"] == Get(params, "customer_name")
    ensures NewCustomer(params, newId).columns["email"] == Get(params, "email")
  {
    assert CreateAttribute(params, "customer_name") == Get(params, "customer_name");
    assert CreateAttribute(params, "email") == Get(params, "email");
  }

  // ---------------------------------------------------------------------------
  // update

  /** `update_data`: the request's non-`None` values for columns an update may set. */
  function UpdateData(params: Dict): (data: Dict)
    ensures data.Keys <= ValidColumns
    ensures forall k :: k in data <==> k in params && params[k] != Null && k !in ControlKeys && k in ValidColumns
    ensures forall k :: k in data ==> data[k] == params[k] && data[k] != Null
  {
    map k | k in params && params[k] != Null && k !in ControlKeys && k in ValidColumns :: params[k]
  }

  /** The keys of `data`, in column order. */
  function InOrder(columns: seq<string>, data: Dict): (fields: seq<string>)
    ensures forall k :: k in fields <==> k in columns && k in data
  {
    if columns == [] then []
    else (if columns[0] in data then [columns[0]] else []) + InOrder(columns[1..], data)
  }

  /** `UPDATE customers SET ... WHERE mcp_id = key`: every matching row gets the new values. */
  function UpdateRows(rows: seq<Customer>, key: Value, data: Dict): seq<Customer> {
    seq(|rows|, i requires 0 <= i < |rows| =>
      if KeyOf(rows[i]) == key then rows[i].(columns := Merge(rows[i].columns, data)) else rows[i])
  }

  const UpdateNeedsId := "Customer ID is required for update"
  const NoUpdateData := "No update data provided"

  function NotFound(key: Value): string {
    "Customer " + ToText(key) + " not found"
  }

  /** `list(update_data.keys())`, in column order: exactly the columns written. */
  function UpdatedFields(data: Dict): (v: Value)
    requires data.Keys <= ValidColumns
    ensures v.Array? && forall k :: Str(k) in v.items <==> k in data
  {
    var fields := InOrder(ColumnOrder, data);
    assert forall k :: Str(k) in Strings(fields).items <==> k in fields by {
      forall k ensures Str(k) in Strings(fields).items <==> k in fields {
        if k in fields {
          var i :| 0 <= i < |fields| && fields[i] == k;
          assert Strings(fields).items[i] == Str(k);
        }
      }
    }
    Strings(fields)
  }

  /** Every value of the update data can be bound. */
  predicate DataBinds(data: Dict) {
    forall k :: k in data ==> !Unbindable(k, data[k])
  }

  /**
   * `_update_customer`: needs a target id and some update data whose values
   * can be bound, and fails when no row has that id; `updated_fields` are the
   * columns written.
   */
  function Update(params: Dict, rows: seq<Customer>): (r: Result<Effect>)
    ensures !Truthy(TargetOf(params)) ==> r == Err(UpdateNeedsId)
    ensures Truthy(TargetOf(params)) && UpdateData(params) == map[] ==> r == Err(NoUpdateData)
    ensures Truthy(TargetOf(params)) && UpdateData(params) != map[] && !DataBinds(UpdateData(params)) ==>
              r == Err(BindError)
    ensures Truthy(TargetOf(params)) && UpdateData(params) != map[] && DataBinds(UpdateData(params)) ==>
              (r.Ok? <==> Find(rows, TargetOf(params)) >= 0) &&
              (r.Err? ==> r.error == NotFound(TargetOf(params)))
    ensures r.Ok? ==> r.value.rows == UpdateRows(rows, TargetOf(params), UpdateData(params))
    ensures r.Ok? ==> ("updated_fields" in r.value.result &&
              var fields := r.value.result["updated_fields"];
              fields.Array? && forall k :: Str(k) in fields.items <==> k in UpdateData(params))
    ensures r.Ok? ==>
              r.value.result == map["operation" := Str("update"), "customer_id" := TargetOf(params),
                                    "updated_fields" := UpdatedFields(UpdateData(params)), "success" := Bool(true)]
  {
    var key := TargetOf(params);
    if !Truthy(key) then Err(UpdateNeedsId)
    else
      var data := UpdateData(params);
      if data == map[] then Err(NoUpdateData)
      else if !DataBinds(data) then Err(BindError)
      else if Find(rows, key) < 0 then Err(NotFound(key))
      else
        Ok(Updated(rows, key, data))
  }

  /** The effect of a successful update: the rewritten rows and the report naming the updated fields. */
  function Updated(rows: seq<Customer>, key: Value, data: Dict): (e: Effect)
    requires data.Keys <= ValidColumns
    ensures e.rows == UpdateRows(rows, key, data)
    ensures "updated_fields" in e.result && e.result["updated_fields"].Array?
    ensures forall k :: Str(k) in e.result["updated_fields"].items <==> k in data
    ensures e.result == map["operation" := Str("update"), "customer_id" := key, "updated_fields" := UpdatedFields(data),
                            "success" := Bool(true)]
  {
    Effect(map["operation" := Str("update"), "customer_id" := key, "updated_fields" := UpdatedFields(data),
               "success" := Bool(true)],
           UpdateRows(rows, key, data))
  }

  // ---------------------------------------------------------------------------
  // delete

  /** `DELETE FROM customers WHERE mcp_id = key`: the rows whose key differs, in order. */
  function Without(rows: seq<Customer>, key: Value): (r: seq<Customer>)
    ensures |r| <= |rows|
    ensures forall j :: 0 <= j < |r| ==> r[j] in rows && KeyOf(r[j]) != key
  {
    if rows == [] then []
    else (if KeyOf(rows[0]) == key then [] else [rows[0]]) + Without(rows[1..], key)
  }

  const DeleteNeedsId := "Customer ID is required for delete"

  /** `_delete_customer`: needs a target id and fails when no row has it. */
  function Delete(params: Dict, rows: seq<Customer>): (r: Result<Effect>)
    ensures !Truthy(TargetOf(params)) ==> r == Err(DeleteNeedsId)
    ensures Truthy(TargetOf(params)) ==>
              (r.Ok? <==> Find(rows, TargetOf(params)) >= 0) &&
              (r.Err? ==> r.error == NotFound(TargetOf(params)))
    ensures r.Ok? ==> r.value.rows == Without(rows, TargetOf(params))
    ensures r.Ok? ==> r.value.result == map["operation" := Str("delete"), "customer_id" := TargetOf(params), "success" := Bool(true)]
  {
    var key := TargetOf(params);
    if !Truthy(key) then Err(DeleteNeedsId)
    else if Find(rows, key) < 0 then Err(NotFound(key))
    else Ok(Effect(map["operation" := Str("delete"), "customer_id" := key, "success" := Bool(true)], Without(rows, key)))
  }

  // ---------------------------------------------------------------------------
  // query

  /** The eight fields a query by id reports. */
  function CustomerView(c: Customer): Dict {
    map[
      "mcp_id" := Str(c.mcpId),
      "customer_name" := Get(c.columns, "customer_name"),
      "email" := Get(c.columns, "email"),
      "status" := Get(c.columns, "status"),
      "subscription_plan" := Get(c.columns, "subscription_plan"),
      "credit_limit" := Get(c.columns, "credit_limit"),
      "total_spent" := Get(c.columns, "total_spent"),
      "loyalty_points" := Get(c.columns, "loyalty_points")
    ]
  }

  /** The four fields a listing reports. */
  function SummaryView(c: Customer): Dict {
    map[
      "mcp_id" := Str(c.mcpId),
      "customer_name" := Get(c.columns, "customer_name"),
      "email" := Get(c.columns, "email"),
      "status" := Get(c.columns, "status")
    ]
  }

  const QueryLimit := 10

  /**
   * `_query_customer`: one customer by id, failing when it is absent, or the
   * first ten rows of the table with their count.
   */
  function Query(params: Dict, rows: seq<Customer>): (r: Result<Dict>)
    ensures Truthy(TargetOf(params)) ==>
              var i := Find(rows, TargetOf(params));
              (r.Ok? <==> i >= 0) &&
              (r.Ok? ==> "customer" in r.value && r.value["customer"] == Object(CustomerView(rows[i]))) &&
              (r.Err? ==> r.error == NotFound(TargetOf(params)))
    ensures !Truthy(TargetOf(params)) ==>
              var n := if |rows| < QueryLimit then |rows| else QueryLimit;
              r.Ok? && "customers" in r.value && "count" in r.value &&
              r.value["customers"].Array? && |r.value["customers"].items| == n &&
              (forall j :: 0 <= j < n ==> r.value["customers"].items[j] == Object(SummaryView(rows[j]))) &&
              r.value["count"] == Num(n as real)
  {
    var key := TargetOf(params);
    if Truthy(key) then
      var i := Find(rows, key);
      if i < 0 then Err(NotFound(key))
      else Ok(map["operation" := Str("query"), "customer" := Object(CustomerView(rows[i])), "success" := Bool(true)])
    else
      var n := if |rows| < QueryLimit then |rows| else QueryLimit;
      Ok(map[
        "operation" := Str("query"),
        "customers" := Array(seq(n, j requires 0 <= j < n => Object(SummaryView(rows[j])))),
        "count" := Num(n as real),
        "success" := Bool(true)
      ])
  }

  // ---------------------------------------------------------------------------
  // dispatch

  predicate IsOperation(operation: Value) {
    operation == Str("create") || operation == Str("update") || operation == Str("delete") || operation == Str("query")
  }

  function UnknownOperation(operation: Value): string {
    "Unknown operation: " + ToText(operation)
  }

  /**
   * The operation named by `operation` applied to the table, with a session:
   * an unknown name raises, and parameters that are not a dict make the
   * first `.get` raise.
   */
  function Operation(operation: Value, parameters: Value, rows: seq<Customer>, newId: string): (r: Result<Effect>)
    ensures !IsOperation(operation) ==> r == Err(UnknownOperation(operation))
    ensures IsOperation(operation) && !parameters.Object? ==> r == Err(NoGetError(parameters))
    ensures r.Ok? ==> IsOperation(operation) && parameters.Object?
    ensures parameters.Object? && operation == Str("create") ==> r == Create(parameters.fields, newId, rows)
    ensures parameters.Object? && operation == Str("update") ==> r == Update(parameters.fields, rows)
    ensures parameters.Object? && operation == Str("delete") ==> r == Delete(parameters.fields, rows)
    ensures parameters.Object? && operation == Str("query") ==>
              var q := Query(parameters.fields, rows);
              (r.Ok? <==> q.Ok?) && (r.Ok? ==> r.value == Effect(q.value, rows)) && (r.Err? ==> r.error == q.error)
  {
    if !IsOperation(operation) then Err(UnknownOperation(operation))
    else if !parameters.Object? then Err(NoGetError(parameters))
    else if operation == Str("create") then Create(parameters.fields, newId, rows)
    else if operation == Str("update") then Update(parameters.fields, rows)
    else if operation == Str("delete") then Delete(parameters.fields, rows)
    else
      match Query(parameters.fields, rows)
      case Ok(result) => Ok(Effect(result, rows))
      case Err(e) => Err(e)
  }

  /** What the caller sees: the result, or the error re-raised after the rollback. */
  function Outcome(o: Result<Effect>): Result<Dict> {
    match o
    case Ok(e) => Ok(e.result)
    case Err(msg) => Err(msg)
  }

  /** The table after the commit, or as it was when the session rolled back. */
  function Committed(o: Result<Effect>, rows: seq<Customer>): seq<Customer> {
    if o.Ok? then o.value.rows else rows
  }

  /**
   * Without a session every operation fails: create, update and delete when
   * their handler calls `rollback` on `None`, query when it calls `execute`.
   */
  function NoSessionError(operation: Value, parameters: Value): string {
    if !IsOperation(operation) then UnknownOperation(operation)
    else if operation != Str("query") then "'NoneType' object has no attribute 'rollback'"
    else if !parameters.Object? then NoGetError(parameters)
    else "'NoneType' object has no attribute 'execute'"
  }

  /** `{"status": "success", "result", "message"}` around an operation's result. */
  function SuccessEnvelope(operation: string, result: Dict): (d: Dict)
    ensures "result" in d && d["result"] == Object(result)
    ensures "status" in d && d["status"] == Str("success")
    ensures "message" in d && d["message"] == Str("Successfully executed " + operation + " operation")
    ensures d.Keys == {"status", "result", "message"}
  {
    map["status" := Str("success"), "result" := Object(result),
        "message" := Str("Successfully executed " + operation + " operation")]
  }

  /**
   * The outcome of `execute_task` with a session: parameters that are not a
   * dict raise before dispatch; a success is wrapped in the envelope.
   */
  function TaskRun(task: Dict, rows: seq<Customer>, newId: string): (r: Result<Effect>)
    ensures var parameters := GetOr(task, "parameters", Object(map[]));
            !parameters.Object? ==> r == Err(NoGetError(parameters))
    ensures var parameters := GetOr(task, "parameters", Object(map[]));
            parameters.Object? ==>
              var o := Operation(Get(parameters.fields, "operation"), parameters, rows, newId);
              (r.Ok? <==> o.Ok?) && (o.Err? ==> r.error == o.error) &&
              (o.Ok? ==> r.value.rows == o.value.rows &&
                         r.value.result == SuccessEnvelope(Get(parameters.fields, "operation").s, o.value.result))
  {
    var parameters := GetOr(task, "parameters", Object(map[]));
    if !parameters.Object? then Err(NoGetError(parameters))
    else
      var operation := Get(parameters.fields, "operation");
      match Operation(operation, parameters, rows, newId)
      case Ok(e) => Ok(Effect(SuccessEnvelope(operation.s, e.result), e.rows))
      case Err(msg) => Err(msg)
  }

  // ---------------------------------------------------------------------------
  // properties of the operations

  /** Update and delete find no row to change exactly when no row has the key. */
  lemma {:induction false} WithoutNoMatch(rows: seq<Customer>, key: Value)
    requires Find(rows, key) < 0
    ensures Without(rows, key) == rows
    decreases |rows|
  {
    if rows != [] {
      assert KeyOf(rows[0]) != key;
      assert Find(rows[1..], key) < 0;
      WithoutNoMatch(rows[1..], key);
      assert [rows[0]] + rows[1..] == rows;
    }
  }

  /** The rows after the first of a table with unique ids have unique ids too. */
  lemma UniqueIdsTail(rows: seq<Customer>)
    requires UniqueIds(rows) && rows != []
    ensures UniqueIds(rows[1..])
  {
    forall a, b | 0 <= a < b < |rows[1..]|
      ensures rows[1..][a].mcpId != rows[1..][b].mcpId
    {
      assert rows[1..][a] == rows[a + 1] && rows[1..][b] == rows[b + 1];
    }
  }

  /** In a table with unique ids, no row after the first has the first row's key. */
  lemma FirstKeyUnique(rows: seq<Customer>, key: Value)
    requires UniqueIds(rows) && rows != [] && KeyOf(rows[0]) == key
    ensures Find(rows[1..], key) < 0
  {
    var k := Find(rows[1..], key);
    if k >= 0 {
      assert rows[1..][k] == rows[k + 1];
      assert rows[0].mcpId != rows[k + 1].mcpId;
    }
  }

  /** On a table with unique ids, a delete removes exactly the matching row and keeps the order of the rest. */
  lemma {:induction false} WithoutRemovesOne(rows: seq<Customer>, key: Value)
    requires UniqueIds(rows) && Find(rows, key) >= 0
    ensures var i := Find(rows, key);
            Without(rows, key) == rows[..i] + rows[i + 1..]
    decreases |rows|
  {
    var i := Find(rows, key);
    if i == 0 {
      FirstKeyUnique(rows, key);
      WithoutNoMatch(rows[1..], key);
      assert Without(rows, key) == [] + Without(rows[1..], key);
    } else {
      UniqueIdsTail(rows);
      assert Find(rows[1..], key) == i - 1;
      WithoutRemovesOne(rows[1..], key);
      RemoveShifted(rows, i);
    }
  }

  /** Removing index `i - 1` of the tail, then putting the head back, removes index `i`. */
  lemma RemoveShifted(rows: seq<Customer>, i: nat)
    requires 0 < i < |rows|
    ensures [rows[0]] + (rows[1..][..i - 1] + rows[1..][i..]) == rows[..i] + rows[i + 1..]
  {
    assert rows[1..][..i - 1] == rows[1..i];
    assert rows[1..][i..] == rows[i + 1..];
    assert [rows[0]] + rows[1..i] == rows[..i];
  }

  /** On a table with unique ids, an update rewrites exactly the matching row and only the columns in the update data. */
  lemma UpdateRewritesOne(rows: seq<Customer>, key: Value, data: Dict)
    requires UniqueIds(rows) && Find(rows, key) >= 0
    ensures var i := Find(rows, key);
            UpdateRows(rows, key, data) == rows[i := rows[i].(columns := Merge(rows[i].columns, data))]
  {
    var i := Find(rows, key);
    forall j | 0 <= j < |rows| && j != i
      ensures KeyOf(rows[j]) != key
    {
      if j < i {
        assert rows[j].mcpId != rows[i].mcpId;
      } else {
        assert rows[i].mcpId != rows[j].mcpId;
      }
    }
  }

  /** The rows after the first of a well-formed table form a well-formed table. */
  lemma TableTail(rows: seq<Customer>)
    requires WellFormedTable(rows) && rows != []
    ensures WellFormedTable(rows[1..])
  {
    UniqueIdsTail(rows);
    forall a | 0 <= a < |rows[1..]|
      ensures WellFormedRow(rows[1..][a])
    {
      assert rows[1..][a] == rows[a + 1];
    }
  }

  /** A well-formed row in front of a well-formed table whose ids all differ from it. */
  lemma ConsTable(c: Customer, tail: seq<Customer>)
    requires WellFormedRow(c) && WellFormedTable(tail)
    requires forall j :: 0 <= j < |tail| ==> tail[j].mcpId != c.mcpId
    ensures WellFormedTable([c] + tail)
  {
    var r := [c] + tail;
    forall a, b | 0 <= a < b < |r|
      ensures r[a].mcpId != r[b].mcpId
    {
      assert r[b] == tail[b - 1];
      if a > 0 {
        assert r[a] == tail[a - 1];
      }
    }
    forall a | 0 <= a < |r|
      ensures WellFormedRow(r[a])
    {
      if a > 0 {
        assert r[a] == tail[a - 1];
      }
    }
  }

  lemma {:induction false} WithoutKeepsTable(rows: seq<Customer>, key: Value)
    requires WellFormedTable(rows)
    ensures WellFormedTable(Without(rows, key))
    decreases |rows|
  {
    if rows != [] {
      var rest := rows[1..];
      TableTail(rows);
      WithoutKeepsTable(rest, key);
      var tail := Without(rest, key);
      if KeyOf(rows[0]) != key {
        forall j | 0 <= j < |tail|
          ensures tail[j].mcpId != rows[0].mcpId
        {
          var m :| 0 <= m < |rest| && rest[m] == tail[j];
          assert rest[m] == rows[m + 1];
        }
        ConsTable(rows[0], tail);
        assert Without(rows, key) == [rows[0]] + tail;
      } else {
        assert Without(rows, key) == [] + tail;
      }
    }
  }


  lemma CreateKeepsTable(params: Dict, newId: string, rows: seq<Customer>)
    requires WellFormedTable(rows) && Create(params, newId, rows).Ok?
    ensures WellFormedTable(Create(params, newId, rows).value.rows)
  {
    var c := NewCustomer(params, newId);
    var r := rows + [c];
    NewCustomerWellFormed(params, newId);
    forall a, b | 0 <= a < b < |r|
      ensures r[a].mcpId != r[b].mcpId
    {
      if b == |rows| {
        assert KeyOf(rows[a]) != Str(newId);
      }
    }
    forall a | 0 <= a < |r|
      ensures WellFormedRow(r[a])
    {
      if a < |rows| {
        assert r[a] == rows[a];
      }
    }
  }

  lemma UpdateRowsKeepTable(rows: seq<Customer>, key: Value, data: Dict)
    requires WellFormedTable(rows)
    requires data.Keys <= ValidColumns && forall k :: k in data ==> data[k] != Null
    ensures WellFormedTable(UpdateRows(rows, key, data))
  {
    var r := UpdateRows(rows, key, data);
    forall a | 0 <= a < |r|
      ensures r[a].mcpId == rows[a].mcpId && WellFormedRow(r[a])
    {
      if KeyOf(rows[a]) == key {
        var m := Merge(rows[a].columns, data);
        assert r[a].columns == m;
        assert m.Keys == ValidColumns;
        assert m["customer_name"] != Null by {
          if "customer_name" !in data {
            assert m["customer_name"] == rows[a].columns["customer_name"];
          }
        }
        assert m["email"] != Null by {
          if "email" !in data {
            assert m["email"] == rows[a].columns["email"];
          }
        }
      }
    }
  }

  /**
   * Every committed operation keeps the schema's guarantees: ids stay
   * unique, every row holds every column, and the NOT NULL columns stay set.
   */
  lemma OperationKeepsTable(operation: Value, parameters: Value, rows: seq<Customer>, newId: string)
    requires WellFormedTable(rows)
    ensures WellFormedTable(Committed(Operation(operation, parameters, rows, newId), rows))
  {
    if Operation(operation, parameters, rows, newId).Ok? {
      if operation == Str("create") {
        CreateKeepsTable(parameters.fields, newId, rows);
      } else if operation == Str("update") {
        UpdateRowsKeepTable(rows, TargetOf(parameters.fields), UpdateData(parameters.fields));
      } else if operation == Str("delete") {
        WithoutKeepsTable(rows, TargetOf(parameters.fields));
      }
    }
  }

  // ---------------------------------------------------------------------------
  // the database session and the agent

  /** The session's view of the `customers` table. */
  class Session {
    var rows: seq<Customer>

    constructor (rows: seq<Customer>)
      ensures this.rows == rows
    {
      this.rows := rows;
    }

    predicate Valid()
      reads this
    {
      WellFormedTable(rows)
    }
  }

  class ExecutorAgent {
    const agent: BaseAgent
    var dbSession: Session?

    constructor (contextStore: ContextStore, agentId: Option<string>, uuidHex: string)
      ensures fresh(agent) && agent.agentType == Executor && agent.status == Idle && agent.messageHistory == []
      ensures agent.agentId == AgentIdFor(Executor, agentId, uuidHex)
      ensures dbSession == null
    {
      agent := new BaseAgent(Executor, contextStore, agentId, uuidHex);
      dbSession := null;
    }

    /** `set_db_session` */
    method SetDbSession(session: Session)
      modifies this`dbSession
      ensures dbSession == session
    {
      dbSession := session;
    }

    /** Runs one operation in the session: commit on success, rollback on failure. */
    method Run(operation: Value, parameters: Value, newId: string) returns (r: Result<Dict>)
      requires dbSession != null
      modifies dbSession
      ensures r == Outcome(Operation(operation, parameters, old(dbSession.rows), newId))
      ensures dbSession.rows == Committed(Operation(operation, parameters, old(dbSession.rows), newId), old(dbSession.rows))
      ensures old(dbSession.Valid()) ==> dbSession.Valid()
    {
      var o := Operation(operation, parameters, dbSession.rows, newId);
      if dbSession.Valid() {
        OperationKeepsTable(operation, parameters, dbSession.rows, newId);
      }
      match o
      case Ok(e) =>
        dbSession.rows := e.rows;
        r := Ok(e.result);
      case Err(msg) =>
        r := Err(msg);
    }

    /** `execute_operation`: the operation and parameters come from the payload. */
    method ExecuteOperation(payload: Dict, newId: string) returns (r: Result<Dict>)
      modifies dbSession
      ensures dbSession == null ==>
                r == Err(NoSessionError(Get(payload, "operation"), GetOr(payload, "parameters", Object(map[]))))
      ensures dbSession != null ==>
                var o := Operation(Get(payload, "operation"), GetOr(payload, "parameters", Object(map[])), old(dbSession.rows), newId);
                r == Outcome(o) && dbSession.rows == Committed(o, old(dbSession.rows))
      ensures dbSession != null && old(dbSession.Valid()) ==> dbSession.Valid()
    {
      var operation := Get(payload, "operation");
      var parameters := GetOr(payload, "parameters", Object(map[]));
      if dbSession == null {
        r := Err(NoSessionError(operation, parameters));
      } else {
        r := Run(operation, parameters, newId);
      }
    }

    /**
     * `execute_task`: refuses to run without a session, and is idle again on
     * every exit path.
     */
    method ExecuteTask(task: Dict, newId: string) returns (r: Result<Dict>)
      modifies agent`status, dbSession
      ensures agent.status == Idle
      ensures dbSession == null ==> r == Err("Database session not set")
      ensures dbSession != null ==>
                r == Outcome(TaskRun(task, old(dbSession.rows), newId)) &&
                dbSession.rows == Committed(TaskRun(task, old(dbSession.rows), newId), old(dbSession.rows))
      ensures dbSession != null && old(dbSession.Valid()) ==> dbSession.Valid()
    {
      agent.status := Busy;
      if dbSession == null {
        r := Err("Database session not set");
      } else {
        var parameters := GetOr(task, "parameters", Object(map[]));
        if !parameters.Object? {
          r := Err(NoGetError(parameters));
        } else {
          var operation := Get(parameters.fields, "operation");
          var outcome := Run(operation, parameters, newId);
          if outcome.Ok? {
            r := Ok(SuccessEnvelope(operation.s, outcome.value));
          } else {
            r := outcome;
          }
        }
      }
      agent.status := Idle;
    }

    /** `process_message`: only "execute_operation" is handled; every answer echoes the message id. */
    method ProcessMessage(message: AgentMessage, newId: string) returns (r: MessageResponse)
      modifies dbSession
      ensures r.messageId == message.messageId
      ensures message.action != "execute_operation" ==>
                !r.success && r.error == Some("Unknown action: " + message.action) &&
                (dbSession != null ==> unchanged(dbSession))
      ensures message.action == "execute_operation" && dbSession == null ==>
                !r.success && r.result == None &&
                r.error == Some(NoSessionError(Get(message.payload, "operation"), GetOr(message.payload, "parameters", Object(map[]))))
      ensures message.action == "execute_operation" && dbSession != null ==>
                var o := Operation(Get(message.payload, "operation"), GetOr(message.payload, "parameters", Object(map[])),
                                   old(dbSession.rows), newId);
                (r.success <==> o.Ok?) && dbSession.rows == Committed(o, old(dbSession.rows)) &&
                (o.Ok? ==> r.result == Some(o.value.result) && r.error == None) &&
                (o.Err? ==> r.result == None && r.error == Some(o.error))
    {
      var outcome: Result<Dict>;
      if message.action == "execute_operation" {
        outcome := ExecuteOperation(message.payload, newId);
      } else {
        outcome := Err("Unknown action: " + message.action);
      }
      r := Answer(message, outcome);
    }
  }
}
