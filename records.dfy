/**
 * The warehouse objects the exporter reads and the records utils.py makes
 * of them: a routine and its arguments, a view, an external table and a
 * scheduled query (a data-transfer configuration). Each serializer builds
 * a fresh dictionary and leaves its input untouched.
 */
module Records {
  import opened Common
  import opened Values

  /** A timestamp, seen through its `isoformat()` text. */
  datatype Instant = Instant(iso: string)

  /** `t.isoformat() if t else None`: `None` exactly when the timestamp is absent, otherwise its ISO text. */
  function TimeText(t: Option<Instant>): (v: Value)
    ensures v == Null <==> t.None?
    ensures t.Some? ==> v == Str(t.value.iso)
  {
    if t.Some? then Str(t.value.iso) else Null
  }

  /** A text field that Python may hold as `None`. */
  function OptText(t: Option<string>): (v: Value)
  {
    if t.Some? then Str(t.value) else Null
  }

  /**
   * A routine argument; `dataType` is the argument type's API
   * representation, `None` for an argument without a data type (such as a
   * templated argument).
   */
  datatype Argument = Argument(name: Option<string>, dataType: Option<Value>, mode: Option<string>)

  /** A routine (user-defined function or procedure) of a dataset. */
  datatype Routine = Routine(
    routineId: string,
    routineType: Option<string>,
    language: Option<string>,
    body: Option<string>,
    arguments: seq<Argument>,
    created: Option<Instant>,
    modified: Option<Instant>,
    description: Option<string>)

  /**
   * A table of a dataset as `get_table` returns it; `schema` holds the API
   * representation of each field, `externalConfig` that of the external
   * data configuration when there is one.
   */
  datatype Table = Table(
    tableId: string,
    tableType: string,
    viewQuery: Option<string>,
    description: Option<string>,
    created: Option<Instant>,
    modified: Option<Instant>,
    schema: seq<Value>,
    externalConfig: Option<Value>)

  /** A transfer-configuration state: its enum code and name; code 0 is falsy. */
  datatype TransferState = TransferState(code: int, name: string)

  /**
   * A data-transfer configuration. `scheduleOptions` and
   * `emailPreferences` are `None` when the message is unset (falsy).
   */
  datatype Transfer = Transfer(
    name: string,
    displayName: string,
    dataSourceId: string,
    params: map<string, Value>,
    schedule: string,
    scheduleOptions: Option<Value>,
    destinationDatasetId: string,
    disabled: bool,
    updateTime: Option<Instant>,
    nextRunTime: Option<Instant>,
    state: TransferState,
    userId: int,
    datasetRegion: string,
    notificationPubsubTopic: string,
    emailPreferences: Option<Value>)

  // ---------------------------------------------------------------------
  // utils.py:8-24, serialize_routine
  // ---------------------------------------------------------------------

  const RoutineKeys: set<string> :=
    {"routine_id", "type_", "language", "body", "arguments", "created", "modified", "description"}

  const ArgumentKeys: set<string> := {"name", "data_type", "mode"}

  /** An argument record, or None when the argument has no data type (`to_api_repr` on `None` raises). */
  function ArgumentRecord(a: Argument): (v: Option<Value>)
    ensures v.Some? <==> a.dataType.Some?
    ensures v.Some? ==> v.value.Dict? && v.value.entries.Keys == ArgumentKeys
  {
    if a.dataType.None? then None
    else Some(Dict(map["name" := OptText(a.name), "data_type" := a.dataType.value, "mode" := OptText(a.mode)]))
  }

  /** Every argument of the routine has a data type. */
  predicate Typed(r: Routine)
  {
    forall i :: 0 <= i < |r.arguments| ==> r.arguments[i].dataType.Some?
  }

  /** The argument records in order, or None when one of the arguments has no data type. */
  function ArgumentRecords(args: seq<Argument>): (vs: Option<seq<Value>>)
    ensures vs.Some? <==> forall i :: 0 <= i < |args| ==> args[i].dataType.Some?
    ensures vs.Some? ==> |vs.value| == |args|
    ensures vs.Some? ==> forall i :: 0 <= i < |args| ==> ArgumentRecord(args[i]) == Some(vs.value[i])
  {
    if forall i :: 0 <= i < |args| ==> args[i].dataType.Some?
    then Some(seq(|args|, i requires 0 <= i < |args| => ArgumentRecord(args[i]).value))
    else None
  }

  /**
   * The routine record: its id, type, language and body as they are, one
   * argument record per argument in the routine's order, and the two
   * timestamps as text or `None`. There is no record (the serializer
   * raises) when an argument has no data type.
   */
  function SerializeRoutine(r: Routine): (v: Option<Value>)
    ensures v.Some? <==> Typed(r)
    ensures v.Some? ==> v.value.Dict? && v.value.entries.Keys == RoutineKeys
    ensures v.Some? ==> v.value.entries["arguments"] == List(ArgumentRecords(r.arguments).value)
    ensures v.Some? ==> (v.value.entries["created"] == Null <==> r.created.None?)
    ensures v.Some? ==> (v.value.entries["modified"] == Null <==> r.modified.None?)
  {
    var arguments := ArgumentRecords(r.arguments);
    if arguments.None? then None
    else Some(Dict(map[
      "routine_id" := Str(r.routineId),
      "type_" := OptText(r.routineType),
      "language" := OptText(r.language),
      "body" := OptText(r.body),
      "arguments" := List(arguments.value),
      "created" := TimeText(r.created),
      "modified" := TimeText(r.modified),
      "description" := OptText(r.description)]))
  }

  // ---------------------------------------------------------------------
  // utils.py:27-35, serialize_view
  // ---------------------------------------------------------------------

  const ViewKeys: set<string> := {"table_id", "view_query", "description", "created", "modified", "schema"}

  /** The view record: id, query and description copied, the schema fields in order. */
  function SerializeView(t: Table): (v: Value)
    ensures v.Dict? && v.entries.Keys == ViewKeys
    ensures v.entries["schema"] == List(t.schema)
    ensures v.entries["created"] == Null <==> t.created.None?
    ensures v.entries["modified"] == Null <==> t.modified.None?
  {
    Dict(map[
      "table_id" := Str(t.tableId),
      "view_query" := OptText(t.viewQuery),
      "description" := OptText(t.description),
      "created" := TimeText(t.created),
      "modified" := TimeText(t.modified),
      "schema" := List(t.schema)])
  }

  // ---------------------------------------------------------------------
  // utils.py:38-46, serialize_external_table
  // ---------------------------------------------------------------------

  const ExternalTableKeys: set<string> :=
    {"table_id", "schema", "external_data_configuration", "description", "created", "modified"}

  /**
   * The external-table record; the table must carry an external data
   * configuration (utils.py:42 dereferences it).
   */
  function SerializeExternalTable(t: Table): (v: Value)
    requires t.externalConfig.Some?
    ensures v.Dict? && v.entries.Keys == ExternalTableKeys
    ensures v.entries["schema"] == List(t.schema)
    ensures v.entries["created"] == Null <==> t.created.None?
    ensures v.entries["modified"] == Null <==> t.modified.None?
  {
    Dict(map[
      "table_id" := Str(t.tableId),
      "schema" := List(t.schema),
      "external_data_configuration" := t.externalConfig.value,
      "description" := OptText(t.description),
      "created" := TimeText(t.created),
      "modified" := TimeText(t.modified)])
  }

  // ---------------------------------------------------------------------
  // utils.py:49-78, serialize_scheduled_query
  // ---------------------------------------------------------------------

  /**
   * utils.py:65, `params.get('query') if params else None`. The emptiness
   * test adds nothing: the result is the `query` entry, or `None` without one.
   */
  function ParamsQuery(params: map<string, Value>): (q: Value)
    ensures "query" in params ==> q == params["query"]
    ensures "query" !in params ==> q == Null
  {
    if |params| > 0 && "query" in params then params["query"] else Null
  }

  /** `serialize_message(m) if m else None`. */
  function SerializeIfSet(m: Option<Value>): (v: Value)
  {
    if m.Some? then SerializeMessage(m.value) else Null
  }

  /** utils.py:72, `state.name if state else None`: the name, or `None` for the falsy code 0. */
  function StateName(s: TransferState): (v: Value)
    ensures v == Null <==> s.code == 0
    ensures s.code != 0 ==> v == Str(s.name)
  {
    if s.code != 0 then Str(s.name) else Null
  }

  /**
   * The scheduled-query record: the configuration's fields under their
   * Python names, `params` and the two optional messages serialized, and
   * the raw `params_query` beside them.
   */
  function SerializeScheduledQuery(t: Transfer): (v: Value)
    ensures v.Dict? && "params_query" in v.entries && "params" in v.entries
    ensures v.entries["params_query"] == ParamsQuery(t.params)
  {
    Dict(map[
      "name" := Str(t.name),
      "display_name" := Str(t.displayName),
      "data_source_id" := Str(t.dataSourceId),
      "params" := SerializeMessage(Dict(t.params)),
      "params_query" := ParamsQuery(t.params),
      "schedule" := Str(t.schedule),
      "schedule_options" := SerializeIfSet(t.scheduleOptions),
      "destination_dataset_id" := Str(t.destinationDatasetId),
      "disabled" := Bool(t.disabled),
      "update_time" := TimeText(t.updateTime),
      "next_run_time" := TimeText(t.nextRunTime),
      "state" := StateName(t.state),
      "user_id" := Int(t.userId),
      "dataset_region" := Str(t.datasetRegion),
      "notification_pubsub_topic" := Str(t.notificationPubsubTopic),
      "email_preferences" := SerializeIfSet(t.emailPreferences)])
  }

  // ---------------------------------------------------------------------
  // Properties of the records
  // ---------------------------------------------------------------------

  /** Argument record `i` carries argument `i`'s name, type and mode. */
  lemma RoutineArgumentInOrder(r: Routine, i: nat)
    requires i < |r.arguments| && Typed(r)
    ensures SerializeRoutine(r).value.entries["arguments"].items[i].entries["name"] == OptText(r.arguments[i].name)
    ensures SerializeRoutine(r).value.entries["arguments"].items[i].entries["data_type"] == r.arguments[i].dataType.value
    ensures SerializeRoutine(r).value.entries["arguments"].items[i].entries["mode"] == OptText(r.arguments[i].mode)
  {
  }

  /** A routine record copies the routine's id, type, language, body and description unchanged. */
  lemma RoutineRecordCopiesFields(r: Routine)
    requires Typed(r)
    ensures SerializeRoutine(r).value.entries["routine_id"] == Str(r.routineId)
    ensures SerializeRoutine(r).value.entries["type_"] == OptText(r.routineType)
    ensures SerializeRoutine(r).value.entries["language"] == OptText(r.language)
    ensures SerializeRoutine(r).value.entries["body"] == OptText(r.body)
    ensures SerializeRoutine(r).value.entries["description"] == OptText(r.description)
  {
  }

  /** A view record copies the view's id, query and description unchanged. */
  lemma ViewRecordCopiesFields(t: Table)
    ensures SerializeView(t).entries["table_id"] == Str(t.tableId)
    ensures SerializeView(t).entries["view_query"] == OptText(t.viewQuery)
    ensures SerializeView(t).entries["description"] == OptText(t.description)
  {
  }

  /**
   * The scheduled-query record holds the fields the importer reads back:
   * the display name, data source, schedule, destination and disabled flag
   * as they are, the serialized parameters under the same keys, and the
   * raw query as params_query.
   */
  lemma ScheduledQueryRecordFields(t: Transfer)
    ensures SerializeScheduledQuery(t).Dict?
    ensures {"display_name", "data_source_id", "schedule", "destination_dataset_id", "disabled", "params", "params_query"}
      <= SerializeScheduledQuery(t).entries.Keys
    ensures SerializeScheduledQuery(t).entries["display_name"] == Str(t.displayName)
    ensures SerializeScheduledQuery(t).entries["data_source_id"] == Str(t.dataSourceId)
    ensures SerializeScheduledQuery(t).entries["schedule"] == Str(t.schedule)
    ensures SerializeScheduledQuery(t).entries["destination_dataset_id"] == Str(t.destinationDatasetId)
    ensures SerializeScheduledQuery(t).entries["disabled"] == Bool(t.disabled)
    ensures SerializeScheduledQuery(t).entries["params"].Dict?
    ensures SerializeScheduledQuery(t).entries["params"].entries.Keys == t.params.Keys
    ensures SerializeScheduledQuery(t).entries["params_query"] == ParamsQuery(t.params)
  {
    ScheduledQueryNames(t);
    ScheduledQuerySource(t);
    ScheduledQuerySchedule(t);
    ScheduledQueryTarget(t);
    ScheduledQueryParams(t);
  }

  lemma ScheduledQueryNames(t: Transfer)
    ensures SerializeScheduledQuery(t).Dict?
    ensures "display_name" in SerializeScheduledQuery(t).entries
    ensures SerializeScheduledQuery(t).entries["display_name"] == Str(t.displayName)
  {
  }

  lemma ScheduledQuerySource(t: Transfer)
    ensures SerializeScheduledQuery(t).Dict?
    ensures "data_source_id" in SerializeScheduledQuery(t).entries
    ensures SerializeScheduledQuery(t).entries["data_source_id"] == Str(t.dataSourceId)
  {
  }

  lemma ScheduledQuerySchedule(t: Transfer)
    ensures SerializeScheduledQuery(t).Dict?
    ensures "schedule" in SerializeScheduledQuery(t).entries
    ensures SerializeScheduledQuery(t).entries["schedule"] == Str(t.schedule)
  {
  }

  lemma ScheduledQueryTarget(t: Transfer)
    ensures SerializeScheduledQuery(t).Dict?
    ensures {"destination_dataset_id", "disabled"} <= SerializeScheduledQuery(t).entries.Keys
    ensures SerializeScheduledQuery(t).entries["destination_dataset_id"] == Str(t.destinationDatasetId)
    ensures SerializeScheduledQuery(t).entries["disabled"] == Bool(t.disabled)
  {
  }

  lemma ScheduledQueryParams(t: Transfer)
    ensures SerializeScheduledQuery(t).Dict?
    ensures {"params", "params_query"} <= SerializeScheduledQuery(t).entries.Keys
    ensures SerializeScheduledQuery(t).entries["params"].Dict?
    ensures SerializeScheduledQuery(t).entries["params"].entries.Keys == t.params.Keys
    ensures SerializeScheduledQuery(t).entries["params_query"] == ParamsQuery(t.params)
  {
  }

  /** The state is its name, or `None` for the falsy code 0. */
  lemma StateIsNameOrNone(t: Transfer)
    ensures SerializeScheduledQuery(t).entries["state"] == (if t.state.code == 0 then Null else Str(t.state.name))
  {
  }
}
