/**
 * importer.py: rebuilding a project from the bucket. The target warehouse
 * is a class that records, in call order, every create or load call that
 * succeeded; which calls fail is fixed in advance (`rejects`), and so is
 * which datasets `get_dataset` cannot probe (`probeErrors`). The bucket is
 * only read.
 */
module Importing {
  import opened Common
  import opened Text
  import opened Values
  import opened Records
  import opened Paths
  import opened Base
  import opened Progress
  import opened Components

  // ---------------------------------------------------------------------
  // What the importer asks the target warehouse to create
  // ---------------------------------------------------------------------

  /** `bigquery.RoutineArgument(name=..., data_type=..., mode=...)`. */
  datatype ArgumentSpec = ArgumentSpec(name: Value, dataType: Value, mode: Value)

  /** One create or load call, with the values the importer passes to it. */
  datatype Event =
    | DatasetCreated(datasetId: string, location: string)
    | TableLoaded(datasetId: string, tableId: string, schema: seq<Value>, uri: string, location: string)
    | ExternalTableCreated(ref: string, schema: seq<Value>, config: Value, description: Value)
    | ViewCreated(ref: string, query: Value, description: Value)
    | RoutineCreated(ref: string, routineType: Value, language: Value, body: Value, location: string,
                     arguments: seq<ArgumentSpec>, description: Value)
    | TransferCreated(parent: string, displayName: Value, dataSourceId: Value, params: map<string, Value>,
                      schedule: Value, destinationDatasetId: Value, disabled: Value)

  /** The target project's warehouse and transfer service. */
  class Target {
    /** The datasets that exist; `get_dataset` raises NotFound for any other id. */
    var datasets: set<string>
    /** The calls that succeeded, in call order. */
    var log: seq<Event>
    /** The calls that raise. */
    const rejects: set<Event>
    /** The ids for which `get_dataset` raises an error other than NotFound. */
    const probeErrors: set<string>

    constructor (datasets: set<string>, rejects: set<Event>, probeErrors: set<string>)
      ensures this.datasets == datasets && log == [] && this.rejects == rejects && this.probeErrors == probeErrors
    {
      this.datasets := datasets;
      log := [];
      this.rejects := rejects;
      this.probeErrors := probeErrors;
    }

    /** A create or load call: it succeeds unless rejected; a created dataset then exists. */
    method Create(e: Event) returns (ok: bool)
      modifies this
      ensures ok <==> e !in rejects
      ensures log == if ok then old(log) + [e] else old(log)
      ensures datasets == if ok && e.DatasetCreated? then old(datasets) + {e.datasetId} else old(datasets)
    {
      ok := e !in rejects;
      if ok {
        log := log + [e];
        if e.DatasetCreated? {
          datasets := datasets + {e.datasetId};
        }
      }
    }
  }

  // ---------------------------------------------------------------------
  // Reading records back
  // ---------------------------------------------------------------------

  /** `record[key]` when the record is a dictionary holding the key; None where Python raises. */
  function Field(v: Value, key: string): (r: Option<Value>)
    ensures r.Some? <==> v.Dict? && key in v.entries
    ensures r.Some? ==> r.value == v.entries[key]
  {
    if v.Dict? && key in v.entries then Some(v.entries[key]) else None
  }

  /** A field that holds a text. */
  predicate HasText(v: Value, key: string)
  {
    Field(v, key).Some? && Field(v, key).value.Str?
  }

  /** importer.py:44, 69 and 86: an object of the importing project. */
  function Ref(projectId: string, datasetId: string, id: string): string
  {
    projectId + "." + datasetId + "." + id
  }

  /** importer.py:130, the location new transfer configurations go to. */
  function Parent(projectId: string, region: string): string
  {
    "projects/" + projectId + "/locations/" + region
  }

  /** importer.py:49-53, one argument record rebuilt. */
  function DecodeArgument(v: Value): Option<ArgumentSpec>
  {
    var name, dataType, mode := Field(v, "name"), Field(v, "data_type"), Field(v, "mode");
    if name.Some? && dataType.Some? && mode.Some? then Some(ArgumentSpec(name.value, dataType.value, mode.value))
    else None
  }

  /** The arguments rebuilt in stored order; None when one of them lacks a key. */
  function DecodeArguments(vs: seq<Value>): (r: Option<seq<ArgumentSpec>>)
    ensures r.Some? <==> forall i :: 0 <= i < |vs| ==> DecodeArgument(vs[i]).Some?
    ensures r.Some? ==> |r.value| == |vs| && forall i :: 0 <= i < |vs| ==> r.value[i] == DecodeArgument(vs[i]).value
  {
    if |vs| == 0 then Some([])
    else
      var rest := DecodeArguments(vs[1..]);
      assert forall i :: 1 <= i < |vs| ==> vs[1..][i - 1] == vs[i];
      if DecodeArgument(vs[0]).None? || rest.None? then None
      else Some([DecodeArgument(vs[0]).value] + rest.value)
  }

  /**
   * What the loop body does with one record: create an object, skip the
   * record (the error is logged and the loop goes on), or abandon the
   * remaining records (the error reaches the task's outer handler).
   */
  datatype Step = Make(event: Event) | Skip | Abort

  /** importer.py:42-56: one routine record; any missing key abandons the dataset's routines. */
  function RoutineStep(projectId: string, datasetId: string, region: string, v: Value): (s: Step)
    ensures s.Make? ==> (HasText(v, "routine_id") && s.event.RoutineCreated?
      && s.event.ref == Ref(projectId, datasetId, Field(v, "routine_id").value.s)
      && s.event.location == region)
    ensures s.Skip? == false
  {
    var args := Field(v, "arguments");
    if HasText(v, "routine_id") && Field(v, "type_").Some? && Field(v, "language").Some?
      && Field(v, "body").Some? && args.Some? && args.value.List?
      && DecodeArguments(args.value.items).Some? && Field(v, "description").Some?
    then
      Make(RoutineCreated(Ref(projectId, datasetId, Field(v, "routine_id").value.s),
        Field(v, "type_").value, Field(v, "language").value, Field(v, "body").value, region,
        DecodeArguments(args.value.items).value, Field(v, "description").value))
    else Abort
  }

  /** importer.py:85-92: one external-table record; any missing key abandons the rest. */
  function ExternalTableStep(projectId: string, datasetId: string, v: Value): (s: Step)
    ensures s.Make? ==> (HasText(v, "table_id") && s.event.ExternalTableCreated?
      && s.event.ref == Ref(projectId, datasetId, Field(v, "table_id").value.s))
    ensures s.Skip? == false
  {
    var schema := Field(v, "schema");
    if HasText(v, "table_id") && schema.Some? && schema.value.List?
      && Field(v, "external_data_configuration").Some? && Field(v, "description").Some?
    then
      Make(ExternalTableCreated(Ref(projectId, datasetId, Field(v, "table_id").value.s),
        schema.value.items, Field(v, "external_data_configuration").value, Field(v, "description").value))
    else Abort
  }

  /**
   * importer.py:68-75: one view record. A record without `table_id` makes
   * the error handler's own message raise, which abandons the remaining
   * views; any other failure skips only this view.
   */
  function ViewStep(projectId: string, datasetId: string, v: Value): (s: Step)
    ensures s.Abort? <==> Field(v, "table_id").None?
    ensures s.Make? ==> (HasText(v, "table_id") && s.event.ViewCreated?
      && s.event.ref == Ref(projectId, datasetId, Field(v, "table_id").value.s))
  {
    if Field(v, "table_id").None? then Abort
    else if HasText(v, "table_id") && Field(v, "view_query").Some? && Field(v, "description").Some? then
      Make(ViewCreated(Ref(projectId, datasetId, Field(v, "table_id").value.s),
        Field(v, "view_query").value, Field(v, "description").value))
    else Skip
  }

  /**
   * importer.py:130-143: one scheduled-query record, rebuilt with only
   * `{"query": params_query}` as parameters and created under the
   * importer's own region; any missing key abandons the rest.
   */
  function TransferStep(projectId: string, region: string, v: Value): (s: Step)
    ensures s.Make? ==> (s.event.TransferCreated? && s.event.parent == Parent(projectId, region)
      && s.event.params.Keys == {"query"} && Field(v, "params_query").Some?
      && s.event.params["query"] == Field(v, "params_query").value)
    ensures s.Skip? == false
  {
    var query := Field(v, "params_query");
    if Field(v, "display_name").Some? && Field(v, "data_source_id").Some? && query.Some?
      && Field(v, "schedule").Some? && Field(v, "destination_dataset_id").Some? && Field(v, "disabled").Some?
    then
      Make(TransferCreated(Parent(projectId, region), Field(v, "display_name").value,
        Field(v, "data_source_id").value, map["query" := query.value], Field(v, "schedule").value,
        Field(v, "destination_dataset_id").value, Field(v, "disabled").value))
    else Abort
  }

  // ---------------------------------------------------------------------
  // Failure scope: what a run over the records creates
  // ---------------------------------------------------------------------

  /**
   * The objects created, in order, by a loop over the steps. An abandoning
   * step ends it; a rejected create ends it too in the tasks whose loop
   * sits directly in the outer `try` (`rejectStops`), and skips only that
   * record in import_views.
   */
  function Plan(steps: seq<Step>, rejects: set<Event>, rejectStops: bool): (made: seq<Event>)
    ensures |made| <= |steps|
    ensures forall e :: e in made ==> e !in rejects && Make(e) in steps
  {
    if |steps| == 0 then []
    else
      var rest := Plan(steps[1..], rejects, rejectStops);
      assert forall s :: s in steps[1..] ==> s in steps;
      match steps[0]
      case Abort => []
      case Skip => rest
      case Make(e) =>
        if e !in rejects then [e] + rest
        else if rejectStops then []
        else rest
  }

  /** One step of Plan, at index `i`. */
  lemma PlanStep(steps: seq<Step>, rejects: set<Event>, rejectStops: bool, i: nat)
    requires i < |steps|
    ensures steps[i].Abort? ==> Plan(steps[i..], rejects, rejectStops) == []
    ensures steps[i].Skip? ==> Plan(steps[i..], rejects, rejectStops) == Plan(steps[i + 1..], rejects, rejectStops)
    ensures steps[i].Make? && steps[i].event !in rejects ==>
      Plan(steps[i..], rejects, rejectStops) == [steps[i].event] + Plan(steps[i + 1..], rejects, rejectStops)
    ensures steps[i].Make? && steps[i].event in rejects ==>
      Plan(steps[i..], rejects, rejectStops) == (if rejectStops then [] else Plan(steps[i + 1..], rejects, rejectStops))
  {
    assert steps[i..][0] == steps[i] && steps[i..][1..] == steps[i + 1..];
  }

  /** The first failure ends the run: nothing after an abandoning step or a rejected create is made. */
  lemma {:induction false} FirstFailureEndsRun(steps: seq<Step>, rejects: set<Event>, k: nat)
    requires k < |steps|
    requires steps[k].Abort? || (steps[k].Make? && steps[k].event in rejects)
    ensures Plan(steps, rejects, true) == Plan(steps[..k], rejects, true)
  {
    if k > 0 {
      assert steps[1..][k - 1] == steps[k];
      FirstFailureEndsRun(steps[1..], rejects, k - 1);
      assert steps[..k][0] == steps[0] && steps[..k][1..] == steps[1..][..k - 1];
    }
  }

  /**
   * A failing view does not stop the later ones: without an abandoning
   * record, exactly the accepted views are created.
   */
  lemma {:induction false} ViewFailuresAreSkipped(steps: seq<Step>, rejects: set<Event>, e: Event)
    requires forall k :: 0 <= k < |steps| ==> !steps[k].Abort?
    ensures e in Plan(steps, rejects, false) <==> Make(e) in steps && e !in rejects
  {
    if |steps| > 0 {
      assert forall k :: 1 <= k < |steps| ==> steps[1..][k - 1] == steps[k];
      ViewFailuresAreSkipped(steps[1..], rejects, e);
      assert steps == [steps[0]] + steps[1..];
    }
  }

  /** When every step creates and nothing is rejected, every object is created, in order. */
  lemma {:induction false} PlanCreatesAll(steps: seq<Step>, rejects: set<Event>, rejectStops: bool)
    requires forall k :: 0 <= k < |steps| ==> steps[k].Make? && steps[k].event !in rejects
    ensures |Plan(steps, rejects, rejectStops)| == |steps|
    ensures forall k :: 0 <= k < |steps| ==> Plan(steps, rejects, rejectStops)[k] == steps[k].event
  {
    if |steps| > 0 {
      assert forall k :: 1 <= k < |steps| ==> steps[1..][k - 1] == steps[k];
      PlanCreatesAll(steps[1..], rejects, rejectStops);
    }
  }

  function RoutineSteps(projectId: string, datasetId: string, region: string, records: seq<Value>): (steps: seq<Step>)
    ensures |steps| == |records|
    ensures forall k :: 0 <= k < |records| ==> steps[k] == RoutineStep(projectId, datasetId, region, records[k])
  {
    seq(|records|, k requires 0 <= k < |records| => RoutineStep(projectId, datasetId, region, records[k]))
  }

  function ExternalTableSteps(projectId: string, datasetId: string, records: seq<Value>): (steps: seq<Step>)
    ensures |steps| == |records|
    ensures forall k :: 0 <= k < |records| ==> steps[k] == ExternalTableStep(projectId, datasetId, records[k])
  {
    seq(|records|, k requires 0 <= k < |records| => ExternalTableStep(projectId, datasetId, records[k]))
  }

  function ViewSteps(projectId: string, datasetId: string, records: seq<Value>): (steps: seq<Step>)
    ensures |steps| == |records|
    ensures forall k :: 0 <= k < |records| ==> steps[k] == ViewStep(projectId, datasetId, records[k])
  {
    seq(|records|, k requires 0 <= k < |records| => ViewStep(projectId, datasetId, records[k]))
  }

  function TransferSteps(projectId: string, region: string, records: seq<Value>): (steps: seq<Step>)
    ensures |steps| == |records|
    ensures forall k :: 0 <= k < |records| ==> steps[k] == TransferStep(projectId, region, records[k])
  {
    seq(|records|, k requires 0 <= k < |records| => TransferStep(projectId, region, records[k]))
  }

  /** The records a blob holds; a missing, non-JSON or non-list blob makes the read fail. */
  function StoredRecords(blobs: map<string, Blob>, name: string): Option<seq<Value>>
  {
    var v := Lookup(blobs, name);
    if v.Some? && v.value.List? then Some(v.value.items) else None
  }

  /** importer.py:39-62: the routines import_routines creates in a dataset. */
  function RoutinesImport(blobs: map<string, Blob>, projectId: string, datasetId: string, region: string,
                          rejects: set<Event>): (made: seq<Event>)
    ensures forall e :: e in made ==> e.RoutineCreated? && e !in rejects
  {
    var records := StoredRecords(blobs, RoutinesBlob(datasetId));
    if records.None? then []
    else
      var steps := RoutineSteps(projectId, datasetId, region, records.value);
      var made := Plan(steps, rejects, true);
      assert forall e :: e in made ==> e.RoutineCreated? by {
        forall e | e in made ensures e.RoutineCreated? {
          var k :| 0 <= k < |steps| && steps[k] == Make(e);
        }
      }
      made
  }

  /** importer.py:82-98: the external tables import_external_tables creates in a dataset. */
  function ExternalTablesImport(blobs: map<string, Blob>, projectId: string, datasetId: string,
                                rejects: set<Event>): (made: seq<Event>)
    ensures forall e :: e in made ==> e.ExternalTableCreated? && e !in rejects
  {
    var records := StoredRecords(blobs, ExternalTablesBlob(datasetId));
    if records.None? then []
    else
      var steps := ExternalTableSteps(projectId, datasetId, records.value);
      var made := Plan(steps, rejects, true);
      assert forall e :: e in made ==> e.ExternalTableCreated? by {
        forall e | e in made ensures e.ExternalTableCreated? {
          var k :| 0 <= k < |steps| && steps[k] == Make(e);
        }
      }
      made
  }

  /** importer.py:64-80: the views import_views creates in a dataset. */
  function ViewsImport(blobs: map<string, Blob>, projectId: string, datasetId: string,
                       rejects: set<Event>): (made: seq<Event>)
    ensures forall e :: e in made ==> e.ViewCreated? && e !in rejects
  {
    var records := StoredRecords(blobs, ViewsBlob(datasetId));
    if records.None? then []
    else
      var steps := ViewSteps(projectId, datasetId, records.value);
      var made := Plan(steps, rejects, false);
      assert forall e :: e in made ==> e.ViewCreated? by {
        forall e | e in made ensures e.ViewCreated? {
          var k :| 0 <= k < |steps| && steps[k] == Make(e);
        }
      }
      made
  }

  /** importer.py:123-151: the transfer configurations import_scheduled_queries creates. */
  function ScheduledQueriesImport(blobs: map<string, Blob>, projectId: string, region: string,
                                  rejects: set<Event>): (made: seq<Event>)
    ensures forall e :: e in made ==> e.TransferCreated? && e.parent == Parent(projectId, region) && e !in rejects
  {
    var records := StoredRecords(blobs, ScheduledQueriesBlob);
    if records.None? then []
    else
      var steps := TransferSteps(projectId, region, records.value);
      var made := Plan(steps, rejects, true);
      assert forall e :: e in made ==> e.TransferCreated? && e.parent == Parent(projectId, region) by {
        forall e | e in made ensures e.TransferCreated? && e.parent == Parent(projectId, region) {
          var k :| 0 <= k < |steps| && steps[k] == Make(e);
        }
      }
      made
  }

  // ---------------------------------------------------------------------
  // importer.py:100-121, import_table
  // ---------------------------------------------------------------------

  /** The load call for a table, or None when its schema cannot be read as a list. */
  function TableEvent(blobs: map<string, Blob>, bucketName: string, datasetId: string, tableId: string,
                      region: string): (e: Option<Event>)
    ensures e.Some? ==> (e.value.TableLoaded? && e.value.datasetId == datasetId && e.value.tableId == tableId
      && e.value.uri == DataUri(bucketName, datasetId, tableId))
  {
    var schema := Lookup(blobs, SchemaBlob(datasetId, tableId));
    if schema.Some? && schema.value.List?
    then Some(TableLoaded(datasetId, tableId, schema.value.items, DataUri(bucketName, datasetId, tableId), region))
    else None
  }

  /** The table loads, in the order the batch ran them. */
  function TableLoads(blobs: map<string, Blob>, bucketName: string, datasetId: string, order: seq<string>,
                      region: string, rejects: set<Event>): (made: seq<Event>)
    ensures forall e :: e in made ==> e.TableLoaded? && e.datasetId == datasetId && e.tableId in order && e !in rejects
  {
    if |order| == 0 then []
    else
      var init := order[..|order| - 1];
      var t := order[|order| - 1];
      var e := TableEvent(blobs, bucketName, datasetId, t, region);
      TableLoads(blobs, bucketName, datasetId, init, region, rejects)
        + (if e.Some? && e.value !in rejects then [e.value] else [])
  }

  // ---------------------------------------------------------------------
  // importer.py:153-207, import_project
  // ---------------------------------------------------------------------

  /** importer.py:161-166: the first listed name ending in `_config.json`. */
  function FirstConfigName(names: seq<string>): (r: Option<string>)
    ensures r.None? <==> forall i :: 0 <= i < |names| ==> !IsConfigName(names[i])
    ensures r.Some? ==> exists i :: (0 <= i < |names| && names[i] == r.value && IsConfigName(r.value)
      && forall j :: 0 <= j < i ==> !IsConfigName(names[j]))
  {
    if |names| == 0 then None
    else if IsConfigName(names[0]) then Some(names[0])
    else
      var r := FirstConfigName(names[1..]);
      assert forall i :: 1 <= i < |names| ==> names[1..][i - 1] == names[i];
      if r.Some? then
        var i :| 0 <= i < |names[1..]| && names[1..][i] == r.value && forall j :: 0 <= j < i ==> !IsConfigName(names[1..][j]);
        assert names[i + 1] == r.value && forall j :: 0 <= j < i + 1 ==> !IsConfigName(names[j]);
        r
      else r
  }

  /** The stored configuration's `datasets` list, when the config blob holds one. */
  function StoredDatasets(names: seq<string>, blobs: map<string, Blob>): (r: Option<seq<Value>>)
    ensures r.Some? ==> FirstConfigName(names).Some? && Lookup(blobs, FirstConfigName(names).value).Some?
  {
    var name := FirstConfigName(names);
    if name.None? then None
    else
      var config := Lookup(blobs, name.value);
      if config.Some? && config.value.Dict? && "datasets" in config.value.entries
        && config.value.entries["datasets"].List?
      then Some(config.value.entries["datasets"].items)
      else None
  }

  /** The stored configuration's dataset ids, when they are all texts. */
  function StoredDatasetIds(names: seq<string>, blobs: map<string, Blob>): Option<seq<string>>
  {
    var items := StoredDatasets(names, blobs);
    if items.Some? then Texts(items.value) else None
  }

  /** The dataset's creation, when get_dataset reports it missing (importer.py:174-180). */
  function EnsureDataset(existing: set<string>, datasetId: string, region: string): seq<Event>
  {
    if datasetId in existing then [] else [DatasetCreated(datasetId, region)]
  }

  /**
   * importer.py:182-202: the calls one dataset's stages make, in stage
   * order: table loads (the batch drained), external tables, views,
   * routines; never a dataset or a transfer.
   */
  function Stages(blobs: map<string, Blob>, bucketName: string, projectId: string, datasetId: string,
                  region: string, rejects: set<Event>, order: seq<string>, components: seq<Component>): (r: seq<Event>)
    ensures forall e :: e in r ==> e.TableLoaded? || e.ExternalTableCreated? || e.ViewCreated? || e.RoutineCreated?
  {
    (if Tables in components then TableLoads(blobs, bucketName, datasetId, order, region, rejects) else [])
    + (if ExternalTables in components then ExternalTablesImport(blobs, projectId, datasetId, rejects) else [])
    + (if Views in components then ViewsImport(blobs, projectId, datasetId, rejects) else [])
    + (if Routines in components then RoutinesImport(blobs, projectId, datasetId, region, rejects) else [])
  }

  /** The progress updates one dataset's stages make. */
  function DatasetIncrements(names: seq<string>, datasetId: string, components: seq<Component>): nat
  {
    PerDataset(components) + (if Tables in components then |TableIds(names, datasetId)| else 0)
  }

  /** The progress updates of an import over these dataset ids, scheduled queries included. */
  function ImportIncrements(names: seq<string>, datasetIds: seq<string>, components: seq<Component>): nat
  {
    DatasetsIncrements(names, datasetIds, components) + (if ScheduledQueries in components then 1 else 0)
  }

  function DatasetsIncrements(names: seq<string>, datasetIds: seq<string>, components: seq<Component>): nat
  {
    if |datasetIds| == 0 then 0
    else
      DatasetsIncrements(names, datasetIds[..|datasetIds| - 1], components)
        + DatasetIncrements(names, datasetIds[|datasetIds| - 1], components)
  }

  /** How import_project ends: normally, or with the error that escapes it. */
  datatype ImportOutcome =
    | Imported
    | ConfigNotFound
    | ConfigUnreadable
    | BadDatasetId(position: nat)
    | DatasetFailed(datasetId: string)

  /**
   * importer.py:174-180: ensuring a dataset escapes when get_dataset raises
   * an error other than NotFound, or when the dataset is missing and its
   * creation is rejected.
   */
  predicate DatasetFails(existing: set<string>, datasetId: string, region: string, rejects: set<Event>,
                         probeErrors: set<string>)
  {
    datasetId in probeErrors || (datasetId !in existing && DatasetCreated(datasetId, region) in rejects)
  }

  /**
   * How many stored items the dataset loop gets through (importer.py:173):
   * it stops at the first item that is not a text or whose dataset cannot
   * be ensured; each dataset it gets through exists afterwards.
   */
  function ImportedCount(items: seq<Value>, existing: set<string>, region: string, rejects: set<Event>,
                         probeErrors: set<string>): (n: nat)
    ensures n <= |items|
  {
    if |items| == 0 || !items[0].Str? || DatasetFails(existing, items[0].s, region, rejects, probeErrors) then 0
    else 1 + ImportedCount(items[1..], existing + {items[0].s}, region, rejects, probeErrors)
  }

  /** How the dataset loop ends once it got through `n` items: normally, or with the error item `n` raises. */
  function DatasetsEnd(items: seq<Value>, n: nat): (r: Option<ImportOutcome>)
    requires n <= |items|
    ensures r.None? <==> n == |items|
    ensures r.Some? ==> (r.value.BadDatasetId? <==> !items[n].Str?)
    ensures r.Some? && r.value.BadDatasetId? ==> r.value.position == n
    ensures r.Some? && r.value.DatasetFailed? ==> r.value.datasetId == items[n].s
  {
    if n == |items| then None
    else if !items[n].Str? then Some(BadDatasetId(n))
    else Some(DatasetFailed(items[n].s))
  }

  /**
   * The calls of the dataset loop over `ids`, dataset k's tables loaded in
   * the order `orders[k]`: each dataset is ensured against the datasets
   * that exist at its turn, then its stages run.
   */
  function DatasetEvents(blobs: map<string, Blob>, bucketName: string, projectId: string, region: string,
                         rejects: set<Event>, existing: set<string>, ids: seq<string>, orders: seq<seq<string>>,
                         components: seq<Component>): (r: seq<Event>)
    requires |orders| == |ids|
    ensures forall e :: e in r && e.DatasetCreated? ==> e.datasetId in ids
    decreases |ids|
  {
    if |ids| == 0 then []
    else
      var first := EnsureDataset(existing, ids[0], region);
      var stages := Stages(blobs, bucketName, projectId, ids[0], region, rejects, orders[0], components);
      var rest := DatasetEvents(blobs, bucketName, projectId, region, rejects, existing + {ids[0]}, ids[1..], orders[1..],
                                components);
      assert forall e :: e in first + stages + rest ==> e in first || e in stages || e in rest;
      assert forall x :: x in ids[1..] ==> x in ids;
      first + stages + rest
  }

  /**
   * One more imported dataset, as the loop sees it: the log it leaves is the
   * log before the loop followed by the events of every dataset so far, and
   * the datasets existing are those before the loop and every dataset so far.
   */
  lemma DatasetStep(blobs: map<string, Blob>, bucketName: string, projectId: string, region: string,
                    rejects: set<Event>, existing: set<string>, ids: seq<string>, orders: seq<seq<string>>, id: string,
                    order: seq<string>, components: seq<Component>, log: seq<Event>, before: seq<Event>,
                    after: seq<Event>)
    requires |orders| == |ids|
    requires before == log + DatasetEvents(blobs, bucketName, projectId, region, rejects, existing, ids, orders, components)
    requires after == before + EnsureDataset(existing + Elements(ids), id, region)
      + Stages(blobs, bucketName, projectId, id, region, rejects, order, components)
    ensures after
      == log + DatasetEvents(blobs, bucketName, projectId, region, rejects, existing, ids + [id], orders + [order],
                             components)
    ensures existing + Elements(ids) + {id} == existing + Elements(ids + [id])
  {
    var part := DatasetEvents(blobs, bucketName, projectId, region, rejects, existing, ids, orders, components);
    var ensure := EnsureDataset(existing + Elements(ids), id, region);
    var stages := Stages(blobs, bucketName, projectId, id, region, rejects, order, components);
    AppendAssoc(log + part, ensure, stages);
    AppendAssoc(log, part, ensure + stages);
    DatasetEventsSnoc(blobs, bucketName, projectId, region, rejects, existing, ids, orders, id, order, components);
    assert Elements(ids + [id]) == Elements(ids) + {id};
  }

  /** The loop reaches item `i` from the datasets existing then: it stops there, or gets past it with one more dataset. */
  lemma ImportedCountAt(items: seq<Value>, i: nat, existing: set<string>, region: string, rejects: set<Event>,
                        probeErrors: set<string>)
    requires i < |items|
    ensures ImportedCount(items[i..], existing, region, rejects, probeErrors)
      == if !items[i].Str? || DatasetFails(existing, items[i].s, region, rejects, probeErrors) then 0
         else 1 + ImportedCount(items[i + 1..], existing + {items[i].s}, region, rejects, probeErrors)
  {
    assert items[i..][0] == items[i] && items[i..][1..] == items[i + 1..];
  }

  /**
   * The loop's stopping point: every item before it is a text whose
   * dataset could be ensured, and the item there, if any, is not a text or
   * its dataset cannot be ensured.
   */
  lemma {:induction false} ImportedCountStops(items: seq<Value>, existing: set<string>, region: string,
                                              rejects: set<Event>, probeErrors: set<string>)
    ensures var n := ImportedCount(items, existing, region, rejects, probeErrors);
      Texts(items[..n]).Some?
      && (n < |items| ==>
            !items[n].Str?
            || DatasetFails(existing + Elements(Texts(items[..n]).value), items[n].s, region, rejects, probeErrors))
  {
    var n := ImportedCount(items, existing, region, rejects, probeErrors);
    if n > 0 {
      var rest := items[1..];
      ImportedCountStops(rest, existing + {items[0].s}, region, rejects, probeErrors);
      assert items[..n] == [items[0]] + rest[..n - 1];
      assert items[..n][1..] == rest[..n - 1];
      var ids := Texts(rest[..n - 1]).value;
      assert Texts(items[..n]) == Some([items[0].s] + ids);
      assert Elements([items[0].s] + ids) == {items[0].s} + Elements(ids);
      if n < |items| {
        assert rest[n - 1] == items[n];
      }
    } else {
      assert items[..0] == [];
    }
  }

  /** The dataset loop's calls create no transfer, and only datasets that did not exist, in the importer's region. */
  lemma {:induction false} DatasetEventsPart(blobs: map<string, Blob>, bucketName: string, projectId: string,
                                             region: string, rejects: set<Event>, existing: set<string>,
                                             ids: seq<string>, orders: seq<seq<string>>, components: seq<Component>)
    requires |orders| == |ids|
    ensures DatasetPart(DatasetEvents(blobs, bucketName, projectId, region, rejects, existing, ids, orders, components),
                        existing, region)
    decreases |ids|
  {
    if |ids| > 0 {
      var first := EnsureDataset(existing, ids[0], region);
      var stages := Stages(blobs, bucketName, projectId, ids[0], region, rejects, orders[0], components);
      var rest := DatasetEvents(blobs, bucketName, projectId, region, rejects, existing + {ids[0]}, ids[1..], orders[1..],
                                components);
      DatasetEventsPart(blobs, bucketName, projectId, region, rejects, existing + {ids[0]}, ids[1..], orders[1..],
                        components);
      assert forall e :: e in first + stages + rest ==> e in first || e in stages || e in rest;
    }
  }

  /** One more dataset appends its ensuring and its stages, against the datasets existing after the earlier ones. */
  lemma {:induction false} DatasetEventsSnoc(blobs: map<string, Blob>, bucketName: string, projectId: string,
                                             region: string, rejects: set<Event>, existing: set<string>,
                                             ids: seq<string>, orders: seq<seq<string>>, id: string, order: seq<string>,
                                             components: seq<Component>)
    requires |orders| == |ids|
    ensures DatasetEvents(blobs, bucketName, projectId, region, rejects, existing, ids + [id], orders + [order], components)
      == DatasetEvents(blobs, bucketName, projectId, region, rejects, existing, ids, orders, components)
        + (EnsureDataset(existing + Elements(ids), id, region)
           + Stages(blobs, bucketName, projectId, id, region, rejects, order, components))
    decreases |ids|
  {
    var last := EnsureDataset(existing + Elements(ids), id, region)
      + Stages(blobs, bucketName, projectId, id, region, rejects, order, components);
    if |ids| == 0 {
      assert Elements(ids) == {};
      assert existing + Elements(ids) == existing;
      assert (ids + [id])[1..] == [] && (orders + [order])[1..] == [];
    } else {
      var head := EnsureDataset(existing, ids[0], region)
        + Stages(blobs, bucketName, projectId, ids[0], region, rejects, orders[0], components);
      assert (ids + [id])[0] == ids[0] && (ids + [id])[1..] == ids[1..] + [id];
      assert (orders + [order])[0] == orders[0] && (orders + [order])[1..] == orders[1..] + [order];
      DatasetEventsSnoc(blobs, bucketName, projectId, region, rejects, existing + {ids[0]}, ids[1..], orders[1..], id,
                        order, components);
      ElementsCons(ids);
      assert existing + {ids[0]} + Elements(ids[1..]) == existing + Elements(ids);
      var rest := DatasetEvents(blobs, bucketName, projectId, region, rejects, existing + {ids[0]}, ids[1..], orders[1..],
                                components);
      AppendAssoc(head, rest, last);
    }
  }

  class Importer {
    const projectId: string
    const bucketName: string
    const region: string
    const store: Store
    const target: Target
    const progress: ProgressBar

    constructor (projectId: string, bucketName: string, region: string, store: Store, target: Target, progress: ProgressBar)
      ensures this.projectId == projectId && this.bucketName == bucketName && this.region == region
      ensures this.store == store && this.target == target && this.progress == progress
    {
      this.projectId := projectId;
      this.bucketName := bucketName;
      this.region := region;
      this.store := store;
      this.target := target;
      this.progress := progress;
    }

    /**
     * A loop over records that creates each step's object: the calls that
     * succeed are logged in order, as Plan says.
     */
    method RunSteps(steps: seq<Step>, rejectStops: bool)
      requires forall k :: 0 <= k < |steps| && steps[k].Make? ==> !steps[k].event.DatasetCreated?
      modifies target
      ensures target.log == old(target.log) + Plan(steps, target.rejects, rejectStops)
      ensures target.datasets == old(target.datasets)
    {
      ghost var start := target.log;
      ghost var rejects := target.rejects;
      ghost var planned := Plan(steps, rejects, rejectStops);
      var i := 0;
      var going := true;
      assert steps[i..] == steps;
      while i < |steps| && going
        invariant 0 <= i <= |steps|
        invariant going ==> start + planned == target.log + Plan(steps[i..], rejects, rejectStops)
        invariant !going ==> target.log == start + planned
        invariant target.datasets == old(target.datasets)
        decreases |steps| - i, going
      {
        PlanStep(steps, rejects, rejectStops, i);
        match steps[i] {
          case Abort =>
            going := false;
            assert target.log + [] == target.log;
          case Skip =>
            i := i + 1;
          case Make(e) =>
            ghost var before := target.log;
            var ok := target.Create(e);
            if ok {
              AppendAssoc(before, [e], Plan(steps[i + 1..], rejects, rejectStops));
              i := i + 1;
            } else if rejectStops {
              going := false;
              assert target.log + [] == target.log;
            } else {
              i := i + 1;
            }
        }
      }
      if going {
        assert steps[i..] == [];
        assert target.log + [] == target.log;
      }
    }

    /** importer.py:39-62. */
    method ImportRoutines(datasetId: string)
      modifies target, progress
      ensures target.log == old(target.log) + RoutinesImport(store.blobs, projectId, datasetId, region, target.rejects)
      ensures target.datasets == old(target.datasets)
      ensures progress.count == old(progress.count) + 1
    {
      var records := StoredRecords(store.blobs, RoutinesBlob(datasetId));
      if records.Some? {
        RunSteps(RoutineSteps(projectId, datasetId, region, records.value), true);
      }
      progress.Increment();
    }

    /** importer.py:82-98. */
    method ImportExternalTables(datasetId: string)
      modifies target, progress
      ensures target.log == old(target.log) + ExternalTablesImport(store.blobs, projectId, datasetId, target.rejects)
      ensures target.datasets == old(target.datasets)
      ensures progress.count == old(progress.count) + 1
    {
      var records := StoredRecords(store.blobs, ExternalTablesBlob(datasetId));
      if records.Some? {
        RunSteps(ExternalTableSteps(projectId, datasetId, records.value), true);
      }
      progress.Increment();
    }

    /** importer.py:64-80. */
    method ImportViews(datasetId: string)
      modifies target, progress
      ensures target.log == old(target.log) + ViewsImport(store.blobs, projectId, datasetId, target.rejects)
      ensures target.datasets == old(target.datasets)
      ensures progress.count == old(progress.count) + 1
    {
      var records := StoredRecords(store.blobs, ViewsBlob(datasetId));
      if records.Some? {
        RunSteps(ViewSteps(projectId, datasetId, records.value), false);
      }
      progress.Increment();
    }

    /** importer.py:123-151. */
    method ImportScheduledQueries()
      modifies target, progress
      ensures target.log == old(target.log) + ScheduledQueriesImport(store.blobs, projectId, region, target.rejects)
      ensures target.datasets == old(target.datasets)
      ensures progress.count == old(progress.count) + 1
    {
      var records := StoredRecords(store.blobs, ScheduledQueriesBlob);
      if records.Some? {
        RunSteps(TransferSteps(projectId, region, records.value), true);
      }
      progress.Increment();
    }

    /** importer.py:100-121: the load succeeds when the schema reads as a list and the job is not rejected. */
    method ImportTable(datasetId: string, tableId: string)
      modifies target, progress
      ensures target.log == old(target.log) + TableLoads(store.blobs, bucketName, datasetId, [tableId], region, target.rejects)
      ensures target.datasets == old(target.datasets)
      ensures progress.count == old(progress.count) + 1
    {
      assert [tableId][..0] == [];
      var e := TableEvent(store.blobs, bucketName, datasetId, tableId, region);
      if e.Some? {
        var ok := target.Create(e.value);
      }
      progress.Increment();
    }

    /**
     * importer.py:184-193: one load per discovered table id, in the
     * batch's order (`order`, a Python set's iteration order).
     */
    method ImportTables(datasetId: string) returns (ghost order: seq<string>)
      modifies target, progress
      ensures Distinct(order) && Elements(order) == TableIds(store.names, datasetId)
      ensures |order| == |TableIds(store.names, datasetId)|
      ensures target.log == old(target.log) + TableLoads(store.blobs, bucketName, datasetId, order, region, target.rejects)
      ensures target.datasets == old(target.datasets)
      ensures progress.count == old(progress.count) + |order|
    {
      var ids := TableIds(store.names, datasetId);
      var pending := ids;
      order := [];
      while pending != {}
        invariant pending <= ids
        invariant Distinct(order) && Elements(order) == ids - pending
        invariant target.log == old(target.log) + TableLoads(store.blobs, bucketName, datasetId, order, region, target.rejects)
        invariant target.datasets == old(target.datasets)
        invariant progress.count == old(progress.count) + |order|
        decreases |pending|
      {
        var t :| t in pending;
        ImportTable(datasetId, t);
        TableLoadsSnoc(store.blobs, bucketName, datasetId, order, t, region, target.rejects);
        AppendAssoc(old(target.log), TableLoads(store.blobs, bucketName, datasetId, order, region, target.rejects),
                    TableLoads(store.blobs, bucketName, datasetId, [t], region, target.rejects));
        TakePending(order, ids, pending, t);
        order := order + [t];
        pending := pending - {t};
      }
      DistinctCard(order);
    }

    /**
     * importer.py:174-202: the dataset is ensured (created only when
     * get_dataset reports it missing; any other probe error, or a failed
     * creation, escapes), then the stages run in order.
     */
    method ImportDataset(datasetId: string, components: seq<Component>) returns (ok: bool, ghost order: seq<string>)
      modifies target, progress
      ensures ok <==> (datasetId !in target.probeErrors
        && (datasetId in old(target.datasets) || DatasetCreated(datasetId, region) !in target.rejects))
      ensures !ok ==> (target.log == old(target.log) && target.datasets == old(target.datasets)
        && progress.count == old(progress.count))
      ensures ok ==> target.datasets == old(target.datasets) + {datasetId}
      ensures ok ==> (target.log == old(target.log) + EnsureDataset(old(target.datasets), datasetId, region)
        + Stages(store.blobs, bucketName, projectId, datasetId, region, target.rejects, order, components))
      ensures ok ==> progress.count == old(progress.count) + DatasetIncrements(store.names, datasetId, components)
      ensures ok && Tables in components ==> Elements(order) == TableIds(store.names, datasetId)
    {
      order := [];
      ok := EnsureTargetDataset(datasetId);
      if ok {
        order := RunStages(datasetId, components);
      }
    }

    /**
     * importer.py:174-180: get_dataset probes the dataset; when it reports
     * the dataset missing, the dataset is created in the region. Any other
     * probe error, or a rejected creation, escapes.
     */
    method EnsureTargetDataset(datasetId: string) returns (ok: bool)
      modifies target
      ensures ok <==> (datasetId !in target.probeErrors
        && (datasetId in old(target.datasets) || DatasetCreated(datasetId, region) !in target.rejects))
      ensures target.log == old(target.log) + (if ok then EnsureDataset(old(target.datasets), datasetId, region) else [])
      ensures target.datasets == old(target.datasets) + (if ok then {datasetId} else {})
    {
      if datasetId in target.probeErrors {
        assert target.log + [] == target.log;
        return false;
      }
      if datasetId !in target.datasets {
        ok := target.Create(DatasetCreated(datasetId, region));
        if !ok {
          assert target.log + [] == target.log;
        }
      } else {
        assert target.log + [] == target.log;
        ok := true;
      }
    }

    /** importer.py:161-166: the listing is scanned in order and the scan stops at the first config name. */
    method FindConfigBlob() returns (name: Option<string>)
      ensures name == FirstConfigName(store.names)
    {
      var names := store.names;
      name := None;
      var i := 0;
      while i < |names|
        invariant 0 <= i <= |names|
        invariant name.None? && FirstConfigName(names) == FirstConfigName(names[i..])
      {
        assert names[i..][0] == names[i] && names[i..][1..] == names[i + 1..];
        if IsConfigName(names[i]) {
          name := Some(names[i]);
          break;
        }
        i := i + 1;
      }
    }

    /**
     * importer.py:153-207. Without a config blob nothing is touched. The
     * datasets the stored configuration lists are imported in its order;
     * an id that is not a text, a probe error or a failed dataset creation
     * ends the run. Scheduled queries come after every dataset. No dataset
     * that existed is created again, and on a normal end the progress bar
     * advanced once per task of every listed dataset, plus one for
     * scheduled queries.
     */
    method ImportProject(components: seq<Component>)
      returns (outcome: ImportOutcome, ghost datasetPart: seq<Event>, ghost ids: seq<string>,
               ghost orders: seq<seq<string>>)
      modifies target, progress
      ensures outcome == ConfigNotFound <==> FirstConfigName(store.names).None?
      ensures outcome == ConfigUnreadable <==>
                FirstConfigName(store.names).Some? && StoredDatasets(store.names, store.blobs).None?
      ensures outcome == ConfigNotFound || outcome == ConfigUnreadable ==>
                target.log == old(target.log) && target.datasets == old(target.datasets)
                && progress.count == old(progress.count)
      ensures StoredDatasets(store.names, store.blobs).Some? ==>
                var items := StoredDatasets(store.names, store.blobs).value;
                |ids| == ImportedCount(items, old(target.datasets), region, target.rejects, target.probeErrors)
                && Texts(items[..|ids|]) == Some(ids)
                && (if |ids| == |items| then outcome == Imported else Some(outcome) == DatasetsEnd(items, |ids|))
      ensures |orders| == |ids|
      ensures datasetPart
        == DatasetEvents(store.blobs, bucketName, projectId, region, target.rejects, old(target.datasets), ids, orders,
                         components)
      ensures Tables in components ==>
                forall k :: 0 <= k < |ids| ==> Elements(orders[k]) == TableIds(store.names, ids[k])
      ensures target.datasets == old(target.datasets) + Elements(ids)
      ensures progress.count == old(progress.count) + DatasetsIncrements(store.names, ids, components)
        + (if outcome.Imported? && ScheduledQueries in components then 1 else 0)
      ensures outcome.Imported? ==> (StoredDatasetIds(store.names, store.blobs).Some?
        && progress.count == old(progress.count)
          + ImportIncrements(store.names, StoredDatasetIds(store.names, store.blobs).value, components))
      ensures target.log == old(target.log) + datasetPart
        + (if outcome.Imported? && ScheduledQueries in components
           then ScheduledQueriesImport(store.blobs, projectId, region, target.rejects) else [])
      ensures forall e :: e in datasetPart ==> !e.TransferCreated?
      ensures forall e :: e in datasetPart && e.DatasetCreated? ==>
        e.datasetId !in old(target.datasets) && e.location == region
      ensures old(target.datasets) <= target.datasets
    {
      datasetPart, ids, orders := [], [], [];
      assert Elements(ids) == {};
      var unreadable, items := ReadConfig();
      if unreadable.Some? {
        return unreadable.value, datasetPart, ids, orders;
      }
      outcome, datasetPart, ids, orders := ImportStored(items, components);
    }

    /**
     * importer.py:173-205: the dataset loop over the stored items, then the
     * scheduled queries once every dataset was imported.
     */
    method ImportStored(items: seq<Value>, components: seq<Component>)
      returns (outcome: ImportOutcome, ghost datasetPart: seq<Event>, ghost ids: seq<string>,
               ghost orders: seq<seq<string>>)
      modifies target, progress
      ensures |ids| == ImportedCount(items, old(target.datasets), region, target.rejects, target.probeErrors)
      ensures Texts(items[..|ids|]) == Some(ids)
      ensures if |ids| == |items| then outcome == Imported else Some(outcome) == DatasetsEnd(items, |ids|)
      ensures outcome.Imported? ==> Texts(items) == Some(ids)
      ensures |orders| == |ids|
      ensures datasetPart
        == DatasetEvents(store.blobs, bucketName, projectId, region, target.rejects, old(target.datasets), ids, orders,
                         components)
      ensures Tables in components ==>
                forall k :: 0 <= k < |ids| ==> Elements(orders[k]) == TableIds(store.names, ids[k])
      ensures target.datasets == old(target.datasets) + Elements(ids)
      ensures progress.count == old(progress.count) + DatasetsIncrements(store.names, ids, components)
        + (if outcome.Imported? && ScheduledQueries in components then 1 else 0)
      ensures target.log == old(target.log) + datasetPart
        + (if outcome.Imported? && ScheduledQueries in components
           then ScheduledQueriesImport(store.blobs, projectId, region, target.rejects) else [])
      ensures DatasetPart(datasetPart, old(target.datasets), region)
    {
      var failure;
      failure, datasetPart, ids, orders := ImportDatasets(items, components);
      if Tables in components {
        CoversEach(store.names, ids, orders);
      }
      if failure.Some? {
        return failure.value, datasetPart, ids, orders;
      }
      assert items[..|ids|] == items;
      if ScheduledQueries in components {
        ImportScheduledQueries();
      } else {
        assert target.log + [] == target.log;
      }
      outcome := Imported;
    }

    /**
     * importer.py:161-171: the first config blob of the listing is read and
     * its `datasets` entry is the list the loop goes through; the import
     * ends before any call when there is no config blob or when the blob
     * is not a JSON object whose `datasets` is a list.
     */
    method ReadConfig() returns (failure: Option<ImportOutcome>, items: seq<Value>)
      ensures failure.None? <==> StoredDatasets(store.names, store.blobs).Some?
      ensures failure.None? ==> StoredDatasets(store.names, store.blobs) == Some(items)
      ensures failure.Some? ==>
                failure.value == if FirstConfigName(store.names).None? then ConfigNotFound else ConfigUnreadable
    {
      items := [];
      var name := FindConfigBlob();
      if name.None? {
        return Some(ConfigNotFound), items;
      }
      var config := store.Read(name.value);
      if !(config.Some? && config.value.Dict? && "datasets" in config.value.entries
           && config.value.entries["datasets"].List?) {
        return Some(ConfigUnreadable), items;
      }
      items := config.value.entries["datasets"].items;
      failure := None;
    }

    /**
     * importer.py:173-202: the loop over the stored configuration's dataset
     * ids. It gets through the items one dataset at a time and stops at the
     * first item that is not a text or whose dataset cannot be ensured.
     */
    method ImportDatasets(items: seq<Value>, components: seq<Component>)
      returns (failure: Option<ImportOutcome>, ghost datasetPart: seq<Event>, ghost ids: seq<string>,
               ghost orders: seq<seq<string>>)
      modifies target, progress
      ensures |ids| == ImportedCount(items, old(target.datasets), region, target.rejects, target.probeErrors)
      ensures Texts(items[..|ids|]) == Some(ids)
      ensures failure == DatasetsEnd(items, |ids|)
      ensures |orders| == |ids|
      ensures datasetPart
        == DatasetEvents(store.blobs, bucketName, projectId, region, target.rejects, old(target.datasets), ids, orders,
                         components)
      ensures target.log == old(target.log) + datasetPart
      ensures target.datasets == old(target.datasets) + Elements(ids)
      ensures progress.count == old(progress.count) + DatasetsIncrements(store.names, ids, components)
      ensures DatasetPart(datasetPart, old(target.datasets), region)
      ensures Tables in components ==> Covers(store.names, ids, orders)
    {
      ids, orders := [], [];
      failure := None;
      var i := 0;
      assert items[..0] == [];
      while i < |items|
        invariant 0 <= i <= |items|
        invariant |ids| == i && |orders| == i
        invariant Texts(items[..i]) == Some(ids)
        invariant ImportedCount(items, old(target.datasets), region, target.rejects, target.probeErrors)
          == i + ImportedCount(items[i..], target.datasets, region, target.rejects, target.probeErrors)
        invariant target.log == old(target.log)
          + DatasetEvents(store.blobs, bucketName, projectId, region, target.rejects, old(target.datasets), ids, orders,
                          components)
        invariant target.datasets == old(target.datasets) + Elements(ids)
        invariant progress.count == old(progress.count) + DatasetsIncrements(store.names, ids, components)
        invariant Tables in components ==> Covers(store.names, ids, orders)
      {
        ImportedCountAt(items, i, target.datasets, region, target.rejects, target.probeErrors);
        if !items[i].Str? {
          failure := Some(BadDatasetId(i));
          break;
        }
        var datasetId := items[i].s;
        ghost var before := target.log;
        var ok, order := ImportDataset(datasetId, components);
        if !ok {
          failure := Some(DatasetFailed(datasetId));
          break;
        }
        DatasetStep(store.blobs, bucketName, projectId, region, target.rejects, old(target.datasets), ids, orders, datasetId,
                    order, components, old(target.log), before, target.log);
        NextDatasetId(store.names, items, i, components);
        if Tables in components {
          CoversSnoc(store.names, ids, orders, datasetId, order);
        }
        ids, orders := ids + [datasetId], orders + [order];
        i := i + 1;
      }
      datasetPart := DatasetEvents(store.blobs, bucketName, projectId, region, target.rejects, old(target.datasets), ids,
                                   orders, components);
      DatasetEventsPart(store.blobs, bucketName, projectId, region, target.rejects, old(target.datasets), ids, orders,
                        components);
    }

    /** importer.py:184-202: the stages of one dataset, in order. */
    method RunStages(datasetId: string, components: seq<Component>) returns (ghost order: seq<string>)
      modifies target, progress
      ensures target.log == old(target.log)
        + Stages(store.blobs, bucketName, projectId, datasetId, region, target.rejects, order, components)
      ensures target.datasets == old(target.datasets)
      ensures progress.count == old(progress.count) + DatasetIncrements(store.names, datasetId, components)
      ensures Tables in components ==> Elements(order) == TableIds(store.names, datasetId)
    {
      order := [];
      if Tables in components {
        order := ImportTables(datasetId);
      }
      ghost var a := if Tables in components
        then TableLoads(store.blobs, bucketName, datasetId, order, region, target.rejects) else [];
      ghost var b := if ExternalTables in components
        then ExternalTablesImport(store.blobs, projectId, datasetId, target.rejects) else [];
      ghost var c := if Views in components then ViewsImport(store.blobs, projectId, datasetId, target.rejects) else [];
      ghost var d := if Routines in components
        then RoutinesImport(store.blobs, projectId, datasetId, region, target.rejects) else [];
      assert target.log == old(target.log) + a;
      if ExternalTables in components {
        ImportExternalTables(datasetId);
      }
      assert target.log == old(target.log) + a + b;
      if Views in components {
        ImportViews(datasetId);
      }
      assert target.log == old(target.log) + a + b + c;
      if Routines in components {
        ImportRoutines(datasetId);
      }
      assert target.log == old(target.log) + a + b + c + d;
      assert Stages(store.blobs, bucketName, projectId, datasetId, region, target.rejects, order, components)
        == a + b + c + d;
      AppendAssoc(old(target.log), a + b + c, d);
      AppendAssoc(old(target.log), a + b, c);
      AppendAssoc(old(target.log), a, b);
    }
  }

  /** The dataset loop's events: no transfer, and only datasets that did not exist, in the importer's region. */
  ghost predicate DatasetPart(part: seq<Event>, original: set<string>, region: string)
  {
    (forall e :: e in part ==> !e.TransferCreated?)
    && (forall e :: e in part && e.DatasetCreated? ==> e.datasetId !in original && e.location == region)
  }

  /** Each dataset's load order goes through exactly the table ids discovered for it. */
  ghost predicate Covers(names: seq<string>, ids: seq<string>, orders: seq<seq<string>>)
    requires |orders| == |ids|
  {
    |ids| == 0
    || (Covers(names, ids[..|ids| - 1], orders[..|orders| - 1])
        && Elements(orders[|ids| - 1]) == TableIds(names, ids[|ids| - 1]))
  }

  /** One more dataset whose load order covers its table ids keeps the coverage. */
  lemma CoversSnoc(names: seq<string>, ids: seq<string>, orders: seq<seq<string>>, id: string, order: seq<string>)
    requires |orders| == |ids| && Covers(names, ids, orders)
    requires Elements(order) == TableIds(names, id)
    ensures Covers(names, ids + [id], orders + [order])
  {
    assert (ids + [id])[..|ids|] == ids;
    assert (orders + [order])[..|orders|] == orders;
  }

  /** Under coverage, every dataset's load order goes through exactly its table ids. */
  lemma CoversEach(names: seq<string>, ids: seq<string>, orders: seq<seq<string>>)
    requires |orders| == |ids| && Covers(names, ids, orders)
    ensures forall k :: 0 <= k < |ids| ==> Elements(orders[k]) == TableIds(names, ids[k])
  {
    forall k | 0 <= k < |ids| ensures Elements(orders[k]) == TableIds(names, ids[k]) {
      CoversAt(names, ids, orders, k);
    }
  }

  /** Under coverage, dataset `k`'s load order goes through exactly its table ids. */
  lemma {:induction false} CoversAt(names: seq<string>, ids: seq<string>, orders: seq<seq<string>>, k: nat)
    requires |orders| == |ids| && Covers(names, ids, orders) && k < |ids|
    ensures Elements(orders[k]) == TableIds(names, ids[k])
    decreases |ids|
  {
    if k < |ids| - 1 {
      CoversAt(names, ids[..|ids| - 1], orders[..|orders| - 1], k);
    }
  }

  /** One more text id in the stored list: the ids so far grow by it, and so do the increments. */
  lemma NextDatasetId(names: seq<string>, items: seq<Value>, i: nat, components: seq<Component>)
    requires i < |items| && Texts(items[..i]).Some? && items[i].Str?
    ensures Texts(items[..i + 1]) == Some(Texts(items[..i]).value + [items[i].s])
    ensures DatasetsIncrements(names, Texts(items[..i + 1]).value, components)
      == DatasetsIncrements(names, Texts(items[..i]).value, components) + DatasetIncrements(names, items[i].s, components)
  {
    var ids := Texts(items[..i]).value;
    assert items[..i + 1] == items[..i] + [items[i]];
    TextsSnoc(items[..i], items[i]);
    assert (ids + [items[i].s])[..|ids|] == ids;
  }

  /** Taking a pending table id moves it to the loaded ones, still once each. */
  lemma TakePending(order: seq<string>, ids: set<string>, pending: set<string>, t: string)
    requires pending <= ids && Distinct(order) && Elements(order) == ids - pending && t in pending
    ensures Distinct(order + [t]) && Elements(order + [t]) == ids - (pending - {t})
  {
    assert t !in order;
    assert Elements(order + [t]) == Elements(order) + {t};
  }

  /** Loading one more table appends its load, if it succeeds. */
  lemma TableLoadsSnoc(blobs: map<string, Blob>, bucketName: string, datasetId: string, order: seq<string>,
                       t: string, region: string, rejects: set<Event>)
    ensures TableLoads(blobs, bucketName, datasetId, order + [t], region, rejects)
      == TableLoads(blobs, bucketName, datasetId, order, region, rejects)
        + TableLoads(blobs, bucketName, datasetId, [t], region, rejects)
  {
    assert (order + [t])[..|order|] == order;
    assert [t][..0] == [];
  }
}
