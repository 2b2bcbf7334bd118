/**
 * The shared context memory (app/memory/context_store.py): a map from
 * workflow id to an entry holding the ordered log of actions taken in that
 * workflow and a metadata map merged key by key. The lock is not modelled:
 * every call is one sequential step. Creation timestamps are dropped and the
 * new id of `create_workflow_context` is supplied in place of `uuid4()`.
 */
module Memory {
  import opened Values

  datatype Entry = Entry(previousActions: seq<string>, metadata: Dict)

  const EmptyEntry := Entry([], map[])

  /** `if action:`: only a non-empty action string is recorded. */
  predicate Recorded(action: Option<string>) {
    action.Some? && action.value != ""
  }

  /** `if metadata:`: only a non-empty metadata map is merged. */
  function MetadataOf(metadata: Option<Dict>): Dict {
    if metadata.Some? then metadata.value else map[]
  }

  /** The effect of one `update_context` call on an entry. */
  function Updated(e: Entry, action: Option<string>, metadata: Option<Dict>): (r: Entry)
    ensures Recorded(action) ==> r.previousActions == e.previousActions + [action.value]
    ensures !Recorded(action) ==> r.previousActions == e.previousActions
    ensures r.metadata.Keys == e.metadata.Keys + MetadataOf(metadata).Keys
    ensures forall k :: k in MetadataOf(metadata) ==> r.metadata[k] == MetadataOf(metadata)[k]
    ensures forall k :: k in e.metadata && k !in MetadataOf(metadata) ==> r.metadata[k] == e.metadata[k]
  {
    Entry(if Recorded(action) then e.previousActions + [action.value] else e.previousActions,
          Merge(e.metadata, MetadataOf(metadata)))
  }

  /** An update that names no metadata leaves the metadata map as it was. */
  lemma NoMetadataKeepsMetadata(e: Entry, action: Option<string>, metadata: Option<Dict>)
    requires metadata == None || metadata == Some(map[])
    ensures Updated(e, action, metadata).metadata == e.metadata
  {
    assert MetadataOf(metadata) == map[];
    assert e.metadata + map[] == e.metadata;
  }

  /** One argument set of an `update_context` call. */
  datatype Update = Update(action: Option<string>, metadata: Option<Dict>)

  function UpdatedAll(e: Entry, us: seq<Update>): Entry
    decreases |us|
  {
    if us == [] then e else UpdatedAll(Updated(e, us[0].action, us[0].metadata), us[1..])
  }

  function RecordedCount(us: seq<Update>): (n: nat)
    ensures n <= |us|
  {
    if us == [] then 0 else (if Recorded(us[0].action) then 1 else 0) + RecordedCount(us[1..])
  }

  /** The actions a series of updates records, in order: its truthy `action` arguments. */
  function RecordedActions(us: seq<Update>): (actions: seq<string>)
    ensures |actions| == RecordedCount(us)
    ensures forall a :: a in actions ==> a != ""
  {
    if us == [] then [] else (if Recorded(us[0].action) then [us[0].action.value] else []) + RecordedActions(us[1..])
  }

  /** Index of the last update that sets `key`, or -1. */
  function LastWriter(us: seq<Update>, key: string): (i: int)
    ensures -1 <= i < |us|
    ensures i >= 0 ==> key in MetadataOf(us[i].metadata)
    ensures forall j :: i < j < |us| ==> key !in MetadataOf(us[j].metadata)
  {
    if us == [] then -1
    else if key in MetadataOf(us[|us| - 1].metadata) then |us| - 1
    else LastWriter(us[..|us| - 1], key)
  }

  /**
   * After a series of updates the action log is the old log followed by exactly
   * the recorded actions, one per truthy `action` argument.
   */
  lemma {:induction false} ActionLogCounts(e: Entry, us: seq<Update>)
    ensures |UpdatedAll(e, us).previousActions| == |e.previousActions| + RecordedCount(us)
    ensures UpdatedAll(e, us).previousActions[..|e.previousActions|] == e.previousActions
    ensures UpdatedAll(e, us).previousActions == e.previousActions + RecordedActions(us)
    decreases |us|
  {
    if us != [] {
      var e1 := Updated(e, us[0].action, us[0].metadata);
      ActionLogCounts(e1, us[1..]);
      var first := if Recorded(us[0].action) then [us[0].action.value] else [];
      assert e1.previousActions == e.previousActions + first;
      var log, rest := e.previousActions, RecordedActions(us[1..]);
      assert RecordedActions(us) == first + rest;
      assert log + first + rest == log + (first + rest);
    }
    assert UpdatedAll(e, us).previousActions == e.previousActions + RecordedActions(us);
    assert (e.previousActions + RecordedActions(us))[..|e.previousActions|] == e.previousActions;
  }

  lemma {:induction false} UpdatedAllSnoc(e: Entry, us: seq<Update>)
    requires us != []
    ensures UpdatedAll(e, us) == Updated(UpdatedAll(e, us[..|us| - 1]), us[|us| - 1].action, us[|us| - 1].metadata)
    decreases |us|
  {
    if |us| > 1 {
      var e1 := Updated(e, us[0].action, us[0].metadata);
      UpdatedAllSnoc(e1, us[1..]);
      assert us[1..][..|us[1..]| - 1] == us[..|us| - 1][1..];
    }
  }

  /**
   * Last write wins: after a series of updates a metadata key holds the value
   * of the last update that set it, or its old value when no update set it.
   */
  lemma {:induction false} MetadataLastWriteWins(e: Entry, us: seq<Update>, key: string)
    ensures var i := LastWriter(us, key);
            var r := UpdatedAll(e, us).metadata;
            (i >= 0 ==> key in r && r[key] == MetadataOf(us[i].metadata)[key]) &&
            (i < 0 ==> (key in r <==> key in e.metadata) && (key in e.metadata ==> r[key] == e.metadata[key]))
    decreases |us|
  {
    if us != [] {
      var init := us[..|us| - 1];
      UpdatedAllSnoc(e, us);
      MetadataLastWriteWins(e, init, key);
    }
  }

  class ContextStore {
    var store: map<string, Entry>

    constructor ()
      ensures store == map[]
    {
      store := map[];
    }

    /** `create_workflow_context`: seeds an empty entry under `newId`. */
    method CreateWorkflowContext(newId: string) returns (workflowId: string)
      modifies this
      ensures workflowId == newId
      ensures store == old(store)[newId := EmptyEntry]
    {
      workflowId := newId;
      store := store[workflowId := EmptyEntry];
    }

    /** `get_context`: the stored entry, or an empty one for an unknown id; never inserts. */
    function GetContext(workflowId: string): (e: Entry)
      reads this
      ensures workflowId in store ==> e == store[workflowId]
      ensures workflowId !in store ==> e == EmptyEntry
    {
      if workflowId in store then store[workflowId] else EmptyEntry
    }

    /** `update_context`: creates the entry on first use, then records the action and merges the metadata. */
    method UpdateContext(workflowId: string, action: Option<string>, metadata: Option<Dict>)
      modifies this
      ensures store == old(store)[workflowId := Updated(old(GetContext(workflowId)), action, metadata)]
    {
      if workflowId !in store {
        store := store[workflowId := EmptyEntry];
      }
      var e := store[workflowId];
      if Recorded(action) {
        e := e.(previousActions := e.previousActions + [action.value]);
      }
      if metadata.Some? && metadata.value != map[] {
        e := e.(metadata := Merge(e.metadata, metadata.value));
      }
      assert e.metadata == Merge(old(GetContext(workflowId)).metadata, MetadataOf(metadata));
      store := store[workflowId := e];
    }

    /** `reset_context`: an existing entry becomes empty; an unknown id is not inserted. */
    method ResetContext(workflowId: string)
      modifies this
      ensures workflowId in old(store) ==> store == old(store)[workflowId := EmptyEntry]
      ensures workflowId !in old(store) ==> store == old(store)
    {
      if workflowId in store {
        store := store[workflowId := EmptyEntry];
      }
    }

    /** `list_workflows`: every stored id (in no particular order). */
    function ListWorkflows(): (ids: set<string>)
      reads this
      ensures forall id :: id in ids <==> id in store
    {
      store.Keys
    }
  }
}
