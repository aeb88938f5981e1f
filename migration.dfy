/**
 * What an export followed by an import does: each record the exporter
 * writes reads back, in importer.py, as the create call that rebuilds the
 * object in the importing project, with the exporting project's qualifier
 * stripped from its SQL text, and each blob the exporter writes yields
 * its records' objects in the order they were written.
 */
module Migration {
  import opened Common
  import opened Text
  import opened Values
  import opened Records
  import opened Paths
  import opened Base
  import opened Components
  import opened Warehouse
  import opened Exporting
  import opened Importing

  // ---------------------------------------------------------------------
  // What each exported object becomes
  // ---------------------------------------------------------------------

  function ArgumentSpecOf(a: Argument): ArgumentSpec
    requires a.dataType.Some?
  {
    ArgumentSpec(OptText(a.name), a.dataType.value, OptText(a.mode))
  }

  function ArgumentSpecsOf(args: seq<Argument>): seq<ArgumentSpec>
    requires forall i :: 0 <= i < |args| ==> args[i].dataType.Some?
  {
    seq(|args|, i requires 0 <= i < |args| => ArgumentSpecOf(args[i]))
  }

  /** The create call for a routine record, in dataset `datasetId` of project `projectId`. */
  function CreatedRoutine(r: Routine, projectId: string, datasetId: string, region: string): Event
    requires Typed(r)
  {
    RoutineCreated(Ref(projectId, datasetId, r.routineId), OptText(r.routineType), OptText(r.language),
      OptText(r.body), region, ArgumentSpecsOf(r.arguments), OptText(r.description))
  }

  /** The create call for a view record. */
  function CreatedView(t: Table, projectId: string, datasetId: string): Event
  {
    ViewCreated(Ref(projectId, datasetId, t.tableId), OptText(t.viewQuery), OptText(t.description))
  }

  /** The create call for an external-table record. */
  function CreatedExternalTable(t: Table, projectId: string, datasetId: string): Event
    requires t.externalConfig.Some?
  {
    ExternalTableCreated(Ref(projectId, datasetId, t.tableId), t.schema, t.externalConfig.value, OptText(t.description))
  }

  /** The create call for a scheduled-query record: only the query survives of the parameters. */
  function CreatedTransfer(t: Transfer, projectId: string, region: string): Event
  {
    TransferCreated(Parent(projectId, region), Str(t.displayName), Str(t.dataSourceId),
      map["query" := ParamsQuery(t.params)], Str(t.schedule), Str(t.destinationDatasetId), Bool(t.disabled))
  }

  // ---------------------------------------------------------------------
  // One record
  // ---------------------------------------------------------------------

  /** The argument records read back as the arguments, in the routine's order. */
  lemma ArgumentsRoundTrip(args: seq<Argument>)
    requires forall i :: 0 <= i < |args| ==> args[i].dataType.Some?
    ensures DecodeArguments(ArgumentRecords(args).value) == Some(ArgumentSpecsOf(args))
  {
    var vs := ArgumentRecords(args).value;
    forall i | 0 <= i < |args| ensures DecodeArgument(vs[i]) == Some(ArgumentSpecOf(args[i])) {
      assert ArgumentRecord(args[i]) == Some(vs[i]);
    }
    assert DecodeArguments(vs).Some?;
    assert DecodeArguments(vs).value == ArgumentSpecsOf(args);
  }

  /** A routine record is read back as the routine, created in the importing project's dataset and region. */
  lemma RoutineRoundTrip(r: Routine, projectId: string, datasetId: string, region: string)
    requires Typed(r)
    ensures RoutineStep(projectId, datasetId, region, SerializeRoutine(r).value) == Make(CreatedRoutine(r, projectId, datasetId, region))
  {
    ArgumentsRoundTrip(r.arguments);
    RoutineRecordCopiesFields(r);
  }

  /**
   * A routine exported from project `source` and imported into project
   * `projectId` keeps its id and gets the fetched body with `source.`
   * removed.
   */
  lemma RoutineMigrates(e: RoutineEntry, body: string, source: string, projectId: string, datasetId: string,
                        region: string)
    requires Typed(e.listed)
    ensures RoutineStep(projectId, datasetId, region, SerializeRoutine(ExportedRoutine(e, body, source)).value).Make?
    ensures RoutineStep(projectId, datasetId, region, SerializeRoutine(ExportedRoutine(e, body, source)).value).event.ref
      == Ref(projectId, datasetId, e.listed.routineId)
    ensures RoutineStep(projectId, datasetId, region, SerializeRoutine(ExportedRoutine(e, body, source)).value).event.body
      == Str(StripQualifier(body, source))
  {
    RoutineRoundTrip(ExportedRoutine(e, body, source), projectId, datasetId, region);
  }

  /** A view record is read back as the view with its query and description. */
  lemma ViewRoundTrip(t: Table, projectId: string, datasetId: string)
    ensures ViewStep(projectId, datasetId, SerializeView(t)) == Make(CreatedView(t, projectId, datasetId))
  {
    ViewRecordCopiesFields(t);
  }

  /** An external-table record is read back with its schema, configuration and description. */
  lemma ExternalTableRoundTrip(t: Table, projectId: string, datasetId: string)
    requires t.externalConfig.Some?
    ensures ExternalTableStep(projectId, datasetId, SerializeExternalTable(t))
      == Make(CreatedExternalTable(t, projectId, datasetId))
  {
    var v := SerializeExternalTable(t);
    assert Field(v, "table_id") == Some(Str(t.tableId));
    assert Field(v, "schema") == Some(List(t.schema));
  }

  /**
   * A scheduled-query record is read back under the importer's region with
   * its names, schedule, destination and flag; of its parameters only the
   * query remains.
   */
  lemma TransferRoundTrip(t: Transfer, projectId: string, region: string)
    ensures TransferStep(projectId, region, SerializeScheduledQuery(t)) == Make(CreatedTransfer(t, projectId, region))
  {
    ScheduledQueryRecordFields(t);
  }

  /**
   * The scheduled-query fields the importer does not read (schedule
   * options, e-mail preferences, state, the owner) do not reach the new
   * configuration: two transfers that differ only there are imported alike.
   */
  lemma TransferImportForgets(t: Transfer, u: Transfer, projectId: string, region: string)
    requires u == t.(scheduleOptions := u.scheduleOptions, emailPreferences := u.emailPreferences,
                     state := u.state, userId := u.userId, name := u.name)
    ensures TransferStep(projectId, region, SerializeScheduledQuery(t))
      == TransferStep(projectId, region, SerializeScheduledQuery(u))
  {
    TransferRoundTrip(t, projectId, region);
    TransferRoundTrip(u, projectId, region);
  }

  /**
   * The load for an exported table reads the schema the exporter wrote and
   * loads from the URI its data files were written under.
   */
  lemma TableRoundTrip(blobs: map<string, Blob>, bucketName: string, datasetId: string, e: TableEntry, region: string)
    requires e.fetched.Some? && e.shards.Some?
    ensures TableEvent(TableExport(blobs, datasetId, e), bucketName, datasetId, e.tableId, region)
      == Some(TableLoaded(datasetId, e.tableId, e.fetched.value.schema, DataUri(bucketName, datasetId, e.tableId), region))
  {
  }

  /** A table whose extract job wrote at least one data file is among the tables the importer discovers. */
  lemma ExportedTableIsDiscovered(blobs: map<string, Blob>, listing: seq<string>, datasetId: string, e: TableEntry)
    requires e.fetched.Some? && e.shards.Some? && e.shards.value > 0
    requires '/' !in datasetId && '/' !in e.tableId
    requires forall n :: n in listing <==> n in TableExport(blobs, datasetId, e)
    ensures e.tableId in TableIds(listing, datasetId)
  {
    WithDataHolds(blobs, datasetId, e.tableId, e.shards.value, 0);
    DataBlobYieldsTable(datasetId, e.tableId, 0);
    var n := DataBlob(datasetId, e.tableId, 0);
    assert n in listing;
    assert TableIdOf(n) in TableIds(listing, datasetId);
  }

  // ---------------------------------------------------------------------
  // A whole blob
  // ---------------------------------------------------------------------

  /**
   * The views blob of an export, imported with no view rejected, creates
   * every view in the exported order, each with its stripped query.
   */
  lemma ViewsRoundTrip(blobs: map<string, Blob>, views: seq<Table>, source: string, projectId: string,
                       datasetId: string, rejects: set<Event>)
    requires ViewRecords(views, source).Some?
    requires Lookup(blobs, ViewsBlob(datasetId)) == Some(List(ViewRecords(views, source).value))
    requires forall k :: 0 <= k < |views| ==> CreatedView(ExportedView(views[k], source), projectId, datasetId) !in rejects
    ensures |ViewsImport(blobs, projectId, datasetId, rejects)| == |views|
    ensures forall k :: 0 <= k < |views| ==>
      ViewsImport(blobs, projectId, datasetId, rejects)[k] == CreatedView(ExportedView(views[k], source), projectId, datasetId)
  {
    var records := ViewRecords(views, source).value;
    var steps := ViewSteps(projectId, datasetId, records);
    forall k | 0 <= k < |views|
      ensures steps[k] == Make(CreatedView(ExportedView(views[k], source), projectId, datasetId))
    {
      ViewRoundTrip(ExportedView(views[k], source), projectId, datasetId);
    }
    PlanCreatesAll(steps, rejects, false);
  }

  /**
   * The external-tables blob of an export, imported with none rejected,
   * creates every external table in the exported order.
   */
  lemma ExternalTablesRoundTrip(blobs: map<string, Blob>, tables: seq<Table>, projectId: string, datasetId: string,
                                rejects: set<Event>)
    requires ExternalRecords(tables).Some?
    requires Lookup(blobs, ExternalTablesBlob(datasetId)) == Some(List(ExternalRecords(tables).value))
    requires forall k :: 0 <= k < |tables| ==>
      tables[k].externalConfig.Some? && CreatedExternalTable(tables[k], projectId, datasetId) !in rejects
    ensures |ExternalTablesImport(blobs, projectId, datasetId, rejects)| == |tables|
    ensures forall k :: 0 <= k < |tables| ==>
      ExternalTablesImport(blobs, projectId, datasetId, rejects)[k] == CreatedExternalTable(tables[k], projectId, datasetId)
  {
    var records := ExternalRecords(tables).value;
    var steps := ExternalTableSteps(projectId, datasetId, records);
    forall k | 0 <= k < |tables| ensures steps[k] == Make(CreatedExternalTable(tables[k], projectId, datasetId)) {
      ExternalTableRoundTrip(tables[k], projectId, datasetId);
    }
    PlanCreatesAll(steps, rejects, true);
  }

  /**
   * The routines blob of an export, imported with none rejected, creates
   * the routines whose fetched body was non-empty, in listing order.
   */
  lemma RoutinesRoundTrip(blobs: map<string, Blob>, entries: seq<RoutineEntry>, source: string, projectId: string,
                          datasetId: string, region: string, rejects: set<Event>)
    requires RoutineRecords(entries, source).Some?
    requires Lookup(blobs, RoutinesBlob(datasetId)) == Some(List(RoutineRecords(entries, source).value))
    requires forall e :: e in WithBody(entries) ==>
      CreatedRoutine(ExportedRoutine(e, e.fetch.body.value, source), projectId, datasetId, region) !in rejects
    ensures |RoutinesImport(blobs, projectId, datasetId, region, rejects)| == |WithBody(entries)|
    ensures forall k :: 0 <= k < |WithBody(entries)| ==>
      RoutinesImport(blobs, projectId, datasetId, region, rejects)[k]
        == CreatedRoutine(ExportedRoutine(WithBody(entries)[k], WithBody(entries)[k].fetch.body.value, source),
                          projectId, datasetId, region)
  {
    RoutineRecordsSelect(entries, source);
    var kept := WithBody(entries);
    var records := SerializeKept(kept, source);
    SerializeKeptAt(kept, source);
    var steps := RoutineSteps(projectId, datasetId, region, records);
    forall k | 0 <= k < |kept|
      ensures steps[k] == Make(CreatedRoutine(ExportedRoutine(kept[k], kept[k].fetch.body.value, source),
                                              projectId, datasetId, region))
    {
      assert kept[k] in kept;
      RoutineRoundTrip(ExportedRoutine(kept[k], kept[k].fetch.body.value, source), projectId, datasetId, region);
    }
    PlanCreatesAll(steps, rejects, true);
  }

  /**
   * A scheduled-queries blob of serialized transfers, imported with none
   * rejected, creates one configuration per record, in order, all under the
   * importer's region.
   */
  lemma TransfersRoundTrip(blobs: map<string, Blob>, transfers: seq<Transfer>, projectId: string, region: string,
                           rejects: set<Event>)
    requires Lookup(blobs, ScheduledQueriesBlob)
      == Some(List(seq(|transfers|, k requires 0 <= k < |transfers| => SerializeScheduledQuery(transfers[k]))))
    requires forall k :: 0 <= k < |transfers| ==> CreatedTransfer(transfers[k], projectId, region) !in rejects
    ensures |ScheduledQueriesImport(blobs, projectId, region, rejects)| == |transfers|
    ensures forall k :: 0 <= k < |transfers| ==>
      ScheduledQueriesImport(blobs, projectId, region, rejects)[k] == CreatedTransfer(transfers[k], projectId, region)
  {
    var records := seq(|transfers|, k requires 0 <= k < |transfers| => SerializeScheduledQuery(transfers[k]));
    var steps := TransferSteps(projectId, region, records);
    forall k | 0 <= k < |transfers| ensures steps[k] == Make(CreatedTransfer(transfers[k], projectId, region)) {
      TransferRoundTrip(transfers[k], projectId, region);
    }
    PlanCreatesAll(steps, rejects, true);
  }

  // ---------------------------------------------------------------------
  // From an export run to an import
  // ---------------------------------------------------------------------

  /**
   * After the tasks of a complete export ran over datasets with distinct
   * ids, importing dataset `i`'s views with none rejected creates every view
   * the export fetched (`views`), in order, each with its stripped query.
   */
  lemma ExportedViewsAreImported(blobs: map<string, Blob>, source: string, datasets: seq<Dataset>,
                                 components: seq<Component>, i: nat, views: seq<Table>, projectId: string,
                                 rejects: set<Event>)
    requires TablesListed(datasets, components) && Distinct(DatasetIds(datasets)) && i < |datasets|
    requires Views in components && datasets[i].tables.Some?
    requires FetchAll(OfType(datasets[i].tables.value, "VIEW")) == Some(views) && ViewRecords(views, source).Some?
    requires forall k :: 0 <= k < |views| ==>
      CreatedView(ExportedView(views[k], source), projectId, datasets[i].datasetId) !in rejects
    ensures var after := RunTasks(blobs, source, ExportTasks(datasets, components));
      |ViewsImport(after, projectId, datasets[i].datasetId, rejects)| == |views|
    ensures var after := RunTasks(blobs, source, ExportTasks(datasets, components));
      forall k :: 0 <= k < |views| ==>
        ViewsImport(after, projectId, datasets[i].datasetId, rejects)[k]
          == CreatedView(ExportedView(views[k], source), projectId, datasets[i].datasetId)
  {
    ExportLeavesRecords(blobs, source, datasets, components, i);
    ViewsRoundTrip(RunTasks(blobs, source, ExportTasks(datasets, components)), views, source, projectId,
                   datasets[i].datasetId, rejects);
  }

  /**
   * After the tasks of a complete export ran over datasets with distinct
   * ids, importing dataset `i`'s external tables with none rejected creates
   * every external table the export fetched (`tables`), in order.
   */
  lemma ExportedExternalTablesAreImported(blobs: map<string, Blob>, source: string, datasets: seq<Dataset>,
                                          components: seq<Component>, i: nat, tables: seq<Table>, projectId: string,
                                          rejects: set<Event>)
    requires TablesListed(datasets, components) && Distinct(DatasetIds(datasets)) && i < |datasets|
    requires ExternalTables in components && datasets[i].tables.Some?
    requires FetchAll(OfType(datasets[i].tables.value, "EXTERNAL")) == Some(tables) && ExternalRecords(tables).Some?
    requires forall k :: 0 <= k < |tables| ==> CreatedExternalTable(tables[k], projectId, datasets[i].datasetId) !in rejects
    ensures var after := RunTasks(blobs, source, ExportTasks(datasets, components));
      |ExternalTablesImport(after, projectId, datasets[i].datasetId, rejects)| == |tables|
    ensures var after := RunTasks(blobs, source, ExportTasks(datasets, components));
      forall k :: 0 <= k < |tables| ==>
        ExternalTablesImport(after, projectId, datasets[i].datasetId, rejects)[k]
          == CreatedExternalTable(tables[k], projectId, datasets[i].datasetId)
  {
    ExportLeavesRecords(blobs, source, datasets, components, i);
    ExternalTablesRoundTrip(RunTasks(blobs, source, ExportTasks(datasets, components)), tables, projectId,
                            datasets[i].datasetId, rejects);
  }

  /**
   * After the tasks of a complete export ran over datasets with distinct
   * ids, importing dataset `i`'s routines with none rejected creates the
   * routines whose fetched body was non-empty, in listing order.
   */
  lemma ExportedRoutinesAreImported(blobs: map<string, Blob>, source: string, datasets: seq<Dataset>,
                                    components: seq<Component>, i: nat, projectId: string, region: string,
                                    rejects: set<Event>)
    requires TablesListed(datasets, components) && Distinct(DatasetIds(datasets)) && i < |datasets|
    requires Routines in components && RoutinesExport(datasets[i], source).Some?
    requires forall e :: e in WithBody(datasets[i].routines.value) ==>
      CreatedRoutine(ExportedRoutine(e, e.fetch.body.value, source), projectId, datasets[i].datasetId, region) !in rejects
    ensures var kept, after := WithBody(datasets[i].routines.value), RunTasks(blobs, source, ExportTasks(datasets, components));
      |RoutinesImport(after, projectId, datasets[i].datasetId, region, rejects)| == |kept|
    ensures var kept, after := WithBody(datasets[i].routines.value), RunTasks(blobs, source, ExportTasks(datasets, components));
      forall k :: 0 <= k < |kept| ==>
        RoutinesImport(after, projectId, datasets[i].datasetId, region, rejects)[k]
          == CreatedRoutine(ExportedRoutine(kept[k], kept[k].fetch.body.value, source), projectId, datasets[i].datasetId, region)
  {
    ExportLeavesRecords(blobs, source, datasets, components, i);
    RoutinesRoundTrip(RunTasks(blobs, source, ExportTasks(datasets, components)), datasets[i].routines.value, source,
                      projectId, datasets[i].datasetId, region, rejects);
  }
}
