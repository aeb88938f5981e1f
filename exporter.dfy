/**
 * exporter.py: the export pipeline over a fixed snapshot of the live
 * project. Each task writes its blobs to the bucket (or nothing, when one
 * of its calls fails) and advances the progress bar exactly once.
 */
module Exporting {
  import opened Common
  import opened Text
  import opened Values
  import opened Records
  import opened Paths
  import opened Base
  import opened Progress
  import opened Components
  import opened Warehouse

  // ---------------------------------------------------------------------
  // exporter.py:18-23, log_projects_in_scheduled_queries
  // ---------------------------------------------------------------------

  /**
   * The projects the scheduled-query warning names, or None when nothing
   * is logged; the detection runs only when the parameters hold a query
   * (which the caller has already made a text).
   */
  function LogProjectsInScheduledQueries(params: map<string, Value>): (warning: Option<set<string>>)
    requires "query" in params ==> params["query"].Str?
    ensures "query" !in params ==> warning.None?
    ensures warning.Some? <==> "query" in params && ProjectsInQuery(params["query"].s) != {}
    ensures warning.Some? ==> warning.value == ProjectsInQuery(params["query"].s)
  {
    if "query" in params then LogProjectsInSqlQuery(params["query"].s) else None
  }

  // ---------------------------------------------------------------------
  // exporter.py:67-88, export_routines
  // ---------------------------------------------------------------------

  function Prepend(acc: seq<Value>, r: Option<seq<Value>>): Option<seq<Value>>
  {
    if r.Some? then Some(acc + r.value) else None
  }

  /** The listed routine with the fetched body, its qualifier stripped (exporter.py:73-74). */
  function ExportedRoutine(e: RoutineEntry, body: string, projectId: string): Routine
  {
    e.listed.(body := Some(StripQualifier(body, projectId)))
  }

  /**
   * The routine records of one dataset in listing order, or None when a
   * fetch fails, a fetched body is `None` (its `.replace` raises) or a kept
   * routine has an argument without a data type (its serializer raises). A
   * routine whose fetched body is empty is skipped.
   */
  function RoutineRecords(entries: seq<RoutineEntry>, projectId: string): (r: Option<seq<Value>>)
    ensures r.Some? ==> |r.value| <= |entries|
    ensures r.Some? ==> forall e :: e in WithBody(entries) ==> Typed(e.listed)
  {
    if |entries| == 0 then Some([])
    else match entries[0].fetch
      case FetchFailed => None
      case Fetched(body) =>
        if body.None? then None
        else
          var rest := RoutineRecords(entries[1..], projectId);
          if rest.None? then None
          else if body.value == "" then rest
          else
            var record := SerializeRoutine(ExportedRoutine(entries[0], body.value, projectId));
            if record.None? then None else Some([record.value] + rest.value)
  }

  /** One step of RoutineRecords, at index `i`. */
  lemma RoutineRecordsStep(entries: seq<RoutineEntry>, projectId: string, i: nat)
    requires i < |entries|
    ensures entries[i].fetch.FetchFailed? ==> RoutineRecords(entries[i..], projectId).None?
    ensures entries[i].fetch == Fetched(None) ==> RoutineRecords(entries[i..], projectId).None?
    ensures entries[i].fetch == Fetched(Some("")) ==>
      RoutineRecords(entries[i..], projectId) == RoutineRecords(entries[i + 1..], projectId)
    ensures (entries[i].fetch.Fetched? && entries[i].fetch.body.Some? && entries[i].fetch.body.value != ""
             && !Typed(entries[i].listed)) ==> RoutineRecords(entries[i..], projectId).None?
    ensures (entries[i].fetch.Fetched? && entries[i].fetch.body.Some? && entries[i].fetch.body.value != ""
             && Typed(entries[i].listed)) ==>
      RoutineRecords(entries[i..], projectId)
        == Prepend([SerializeRoutine(ExportedRoutine(entries[i], entries[i].fetch.body.value, projectId)).value],
                   RoutineRecords(entries[i + 1..], projectId))
  {
    assert entries[i..][0] == entries[i] && entries[i..][1..] == entries[i + 1..];
  }

  lemma PrependTwice(acc: seq<Value>, x: seq<Value>, r: Option<seq<Value>>)
    ensures Prepend(acc, Prepend(x, r)) == Prepend(acc + x, r)
  {
    if r.Some? {
      assert acc + (x + r.value) == (acc + x) + r.value;
    }
  }

  lemma PrependNothing(r: Option<seq<Value>>)
    ensures Prepend([], r) == r
  {
    if r.Some? {
      assert [] + r.value == r.value;
    }
  }

  /**
   * What export_routines saves for a dataset, or None when it saves nothing:
   * it saves exactly when the routine listing succeeded, every routine was
   * fetched with a body, and every routine it keeps has typed arguments.
   */
  function RoutinesExport(d: Dataset, projectId: string): (r: Option<seq<Value>>)
    ensures r.Some? <==> d.routines.Some? && AllFetched(d.routines.value) && AllTyped(WithBody(d.routines.value))
    ensures r.Some? ==> |r.value| <= |d.routines.value|
  {
    if d.routines.Some? then
      RoutineRecordsSelect(d.routines.value, projectId);
      RoutineRecords(d.routines.value, projectId)
    else None
  }

  /** Every kept routine's arguments have data types. */
  predicate AllTyped(kept: seq<RoutineEntry>)
  {
    forall e :: e in kept ==> Typed(e.listed)
  }

  /** Every routine was fetched and has a body. */
  predicate AllFetched(entries: seq<RoutineEntry>)
  {
    forall i :: 0 <= i < |entries| ==> entries[i].fetch.Fetched? && entries[i].fetch.body.Some?
  }

  /** The routines whose fetched body is non-empty, in listing order. */
  function WithBody(entries: seq<RoutineEntry>): (kept: seq<RoutineEntry>)
    ensures forall e :: e in kept ==> e in entries && e.fetch.Fetched? && e.fetch.body.Some? && e.fetch.body.value != ""
  {
    if |entries| == 0 then []
    else
      var e := entries[0];
      (if e.fetch.Fetched? && e.fetch.body.Some? && e.fetch.body.value != "" then [e] else [])
        + WithBody(entries[1..])
  }

  /** The record saved for a kept routine: its serialization with the stripped body. */
  function KeptRecord(e: RoutineEntry, projectId: string): Value
    requires e.fetch.Fetched? && e.fetch.body.Some? && Typed(e.listed)
  {
    SerializeRoutine(ExportedRoutine(e, e.fetch.body.value, projectId)).value
  }

  /** The records of the kept routines, in order. */
  function SerializeKept(kept: seq<RoutineEntry>, projectId: string): (vs: seq<Value>)
    requires forall e :: e in kept ==> e.fetch.Fetched? && e.fetch.body.Some?
    requires AllTyped(kept)
  {
    if |kept| == 0 then [] else [KeptRecord(kept[0], projectId)] + SerializeKept(kept[1..], projectId)
  }

  /** The record at each position is the record of the routine kept there. */
  lemma {:induction false} SerializeKeptAt(kept: seq<RoutineEntry>, projectId: string)
    requires forall e :: e in kept ==> e.fetch.Fetched? && e.fetch.body.Some?
    requires AllTyped(kept)
    ensures |SerializeKept(kept, projectId)| == |kept|
    ensures forall k :: 0 <= k < |kept| ==> SerializeKept(kept, projectId)[k] == KeptRecord(kept[k], projectId)
  {
    if |kept| > 0 {
      SerializeKeptAt(kept[1..], projectId);
      assert forall k :: 1 <= k < |kept| ==> kept[1..][k - 1] == kept[k];
    }
  }

  /**
   * export_routines saves exactly when every routine was fetched with a
   * body and every kept routine's arguments have data types, and then
   * saves, in listing order, the routines whose ORIGINAL body is
   * non-empty, each with its stripped body.
   */
  lemma {:induction false} RoutineRecordsSelect(entries: seq<RoutineEntry>, projectId: string)
    ensures RoutineRecords(entries, projectId).Some? <==> AllFetched(entries) && AllTyped(WithBody(entries))
    ensures AllFetched(entries) && AllTyped(WithBody(entries)) ==>
      RoutineRecords(entries, projectId) == Some(SerializeKept(WithBody(entries), projectId))
  {
    if |entries| > 0 {
      RoutineRecordsSelect(entries[1..], projectId);
      assert entries[0..] == entries;
      RoutineRecordsStep(entries, projectId, 0);
      AllFetchedCons(entries);
      AllTypedCons(entries);
      if AllFetched(entries) && AllTyped(WithBody(entries)) {
        var e := entries[0];
        var rest := WithBody(entries[1..]);
        assert RoutineRecords(entries[1..], projectId) == Some(SerializeKept(rest, projectId));
        if e.fetch.body.value != "" {
          SelectKeeps(entries, projectId);
        } else {
          SelectSkips(entries, projectId);
        }
      }
    } else {
      assert SerializeKept(WithBody(entries), projectId) == [];
    }
  }

  /** Every routine was fetched with a body when the first one was and every later one was. */
  lemma AllFetchedCons(entries: seq<RoutineEntry>)
    requires |entries| > 0
    ensures AllFetched(entries)
      <==> entries[0].fetch.Fetched? && entries[0].fetch.body.Some? && AllFetched(entries[1..])
  {
    assert forall i :: 1 <= i < |entries| ==> entries[1..][i - 1] == entries[i];
  }

  /** The kept routines are typed when the first one, if kept, is and the later kept ones are. */
  lemma AllTypedCons(entries: seq<RoutineEntry>)
    requires |entries| > 0
    ensures var e := entries[0];
      (AllTyped(WithBody(entries))
       <==> (e.fetch.Fetched? && e.fetch.body.Some? && e.fetch.body.value != "" ==> Typed(e.listed))
            && AllTyped(WithBody(entries[1..])))
  {
    var e := entries[0];
    var head: seq<RoutineEntry> := if e.fetch.Fetched? && e.fetch.body.Some? && e.fetch.body.value != "" then [e] else [];
    assert WithBody(entries) == head + WithBody(entries[1..]);
  }

  /** The case of RoutineRecordsSelect where the first routine has a non-empty body. */
  lemma SelectKeeps(entries: seq<RoutineEntry>, projectId: string)
    requires |entries| > 0 && AllFetched(entries) && entries[0].fetch.body.value != ""
    requires AllFetched(entries[1..]) && Typed(entries[0].listed) && AllTyped(WithBody(entries[1..]))
    requires RoutineRecords(entries[1..], projectId) == Some(SerializeKept(WithBody(entries[1..]), projectId))
    ensures RoutineRecords(entries, projectId) == Some(SerializeKept(WithBody(entries), projectId))
  {
    var e := entries[0];
    var rest := WithBody(entries[1..]);
    assert WithBody(entries) == [e] + rest;
    SerializeKeptCons(e, rest, projectId);
  }

  /** The case of RoutineRecordsSelect where the first routine has an empty body. */
  lemma SelectSkips(entries: seq<RoutineEntry>, projectId: string)
    requires |entries| > 0 && entries[0].fetch == Fetched(Some("")) && AllTyped(WithBody(entries[1..]))
    requires RoutineRecords(entries[1..], projectId) == Some(SerializeKept(WithBody(entries[1..]), projectId))
    ensures RoutineRecords(entries, projectId) == Some(SerializeKept(WithBody(entries), projectId))
  {
    assert WithBody(entries) == [] + WithBody(entries[1..]) == WithBody(entries[1..]);
  }

  lemma SerializeKeptCons(e: RoutineEntry, rest: seq<RoutineEntry>, projectId: string)
    requires e.fetch.Fetched? && e.fetch.body.Some? && Typed(e.listed)
    requires forall x :: x in rest ==> x.fetch.Fetched? && x.fetch.body.Some?
    requires AllTyped(rest)
    ensures SerializeKept([e] + rest, projectId) == [KeptRecord(e, projectId)] + SerializeKept(rest, projectId)
  {
    assert ([e] + rest)[1..] == rest;
  }

  /**
   * Emptiness is tested on the fetched body, not on the stripped one: a
   * body that is nothing but the qualifier is exported, with an empty body.
   */
  lemma EmptinessIsTestedBeforeStripping(e: RoutineEntry, projectId: string)
    requires e.fetch == Fetched(Some(projectId + "."))
    ensures var record := SerializeRoutine(e.listed.(body := Some("")));
      RoutineRecords([e], projectId) == if record.Some? then Some([record.value]) else None
  {
    RemoveAllLeading(projectId + ".", "");
    assert projectId + "." + "" == projectId + ".";
    assert StripQualifier(projectId + ".", projectId) == "";
    var entries := [e];
    assert entries[0..] == entries && entries[1..] == [];
    RoutineRecordsStep(entries, projectId, 0);
    var x := SerializeRoutine(ExportedRoutine(e, projectId + ".", projectId));
    assert ExportedRoutine(e, projectId + ".", projectId) == e.listed.(body := Some(""));
    assert RoutineRecords([], projectId) == Some([]);
    if x.Some? {
      assert [x.value] + [] == [x.value];
    }
  }

  // ---------------------------------------------------------------------
  // exporter.py:90-118, export_views and export_external_tables
  // ---------------------------------------------------------------------

  /** `[get_table(t) for t in entries]`: None when one of the fetches fails. */
  function FetchAll(entries: seq<TableEntry>): (r: Option<seq<Table>>)
    ensures r.Some? <==> forall i :: 0 <= i < |entries| ==> entries[i].fetched.Some?
    ensures r.Some? ==> |r.value| == |entries| && forall i :: 0 <= i < |entries| ==> r.value[i] == entries[i].fetched.value
  {
    if forall i :: 0 <= i < |entries| ==> entries[i].fetched.Some?
    then Some(seq(|entries|, i requires 0 <= i < |entries| => entries[i].fetched.value))
    else None
  }

  /** The view with its query stripped of the qualifier (exporter.py:96-97). */
  function ExportedView(t: Table, projectId: string): Table
    requires t.viewQuery.Some?
  {
    t.(viewQuery := Some(StripQualifier(t.viewQuery.value, projectId)))
  }

  /** The view records, one per view in order; None when a view has no query. */
  function ViewRecords(views: seq<Table>, projectId: string): (r: Option<seq<Value>>)
    ensures r.Some? <==> forall k :: 0 <= k < |views| ==> views[k].viewQuery.Some?
    ensures r.Some? ==> |r.value| == |views|
  {
    if forall k :: 0 <= k < |views| ==> views[k].viewQuery.Some?
    then Some(seq(|views|, k requires 0 <= k < |views| => SerializeView(ExportedView(views[k], projectId))))
    else None
  }

  /** Records built view by view, every view having a query, are the view records. */
  lemma ViewRecordsAre(views: seq<Table>, projectId: string, acc: seq<Value>)
    requires |acc| == |views|
    requires forall k :: 0 <= k < |views| ==> views[k].viewQuery.Some? && acc[k] == SerializeView(ExportedView(views[k], projectId))
    ensures ViewRecords(views, projectId) == Some(acc)
  {
    assert ViewRecords(views, projectId).value == acc;
  }

  /** Every listed view was fetched and has a query. */
  predicate FetchedWithQuery(entries: seq<TableEntry>)
  {
    forall i :: 0 <= i < |entries| ==> entries[i].fetched.Some? && entries[i].fetched.value.viewQuery.Some?
  }

  /** What export_views saves for a dataset, or None when it saves nothing; one record per `VIEW` of the listing. */
  function ViewsExport(d: Dataset, projectId: string): (r: Option<seq<Value>>)
    ensures r.Some? <==> d.tables.Some? && FetchedWithQuery(OfType(d.tables.value, "VIEW"))
    ensures r.Some? ==> d.tables.Some? && |r.value| == |OfType(d.tables.value, "VIEW")|
  {
    if d.tables.None? then None
    else
      var views := FetchAll(OfType(d.tables.value, "VIEW"));
      if views.None? then None else ViewRecords(views.value, projectId)
  }

  /** The external-table records, one per table in order; None when one has no configuration. */
  function ExternalRecords(tables: seq<Table>): (r: Option<seq<Value>>)
    ensures r.Some? <==> forall k :: 0 <= k < |tables| ==> tables[k].externalConfig.Some?
    ensures r.Some? ==> |r.value| == |tables| && forall k :: 0 <= k < |tables| ==> r.value[k] == SerializeExternalTable(tables[k])
  {
    if forall k :: 0 <= k < |tables| ==> tables[k].externalConfig.Some?
    then Some(seq(|tables|, k requires 0 <= k < |tables| => SerializeExternalTable(tables[k])))
    else None
  }

  /** Every listed external table was fetched and has a configuration. */
  predicate FetchedWithConfig(entries: seq<TableEntry>)
  {
    forall i :: 0 <= i < |entries| ==> entries[i].fetched.Some? && entries[i].fetched.value.externalConfig.Some?
  }

  /**
   * What export_external_tables saves for a dataset, or None when it saves
   * nothing; one record per `EXTERNAL` table of the listing.
   */
  function ExternalTablesExport(d: Dataset): (r: Option<seq<Value>>)
    ensures r.Some? <==> d.tables.Some? && FetchedWithConfig(OfType(d.tables.value, "EXTERNAL"))
    ensures r.Some? ==> d.tables.Some? && |r.value| == |OfType(d.tables.value, "EXTERNAL")|
  {
    if d.tables.None? then None
    else
      var tables := FetchAll(OfType(d.tables.value, "EXTERNAL"));
      if tables.None? then None else ExternalRecords(tables.value)
  }

  /** A view record carries the view's id and its query with the qualifier stripped. */
  lemma ViewRecordIsStripped(views: seq<Table>, projectId: string, k: nat)
    requires k < |views| && ViewRecords(views, projectId).Some?
    ensures ViewRecords(views, projectId).value[k].entries["table_id"] == Str(views[k].tableId)
    ensures ViewRecords(views, projectId).value[k].entries["view_query"]
      == Str(StripQualifier(views[k].viewQuery.value, projectId))
  {
    ViewRecordCopiesFields(ExportedView(views[k], projectId));
  }

  // ---------------------------------------------------------------------
  // exporter.py:120-149, export_table
  // ---------------------------------------------------------------------

  /** The bucket after an extract job wrote data files 0 .. n-1 of a table. */
  function WithData(blobs: map<string, Blob>, datasetId: string, tableId: string, n: nat): (r: map<string, Blob>)
    ensures blobs.Keys <= r.Keys
  {
    if n == 0 then blobs else WithData(blobs, datasetId, tableId, n - 1)[DataBlob(datasetId, tableId, n - 1) := Parquet]
  }

  /**
   * The bucket after export_table: when the table was fetched and the
   * extract job ran, its data files and then its schema file; otherwise
   * nothing written.
   */
  function TableExport(blobs: map<string, Blob>, datasetId: string, e: TableEntry): (r: map<string, Blob>)
    ensures blobs.Keys <= r.Keys
    ensures !(e.fetched.Some? && e.shards.Some?) ==> r == blobs
    ensures e.fetched.Some? && e.shards.Some? ==>
      SchemaBlob(datasetId, e.tableId) in r && r[SchemaBlob(datasetId, e.tableId)] == Json(List(e.fetched.value.schema))
  {
    if e.fetched.Some? && e.shards.Some? then
      WithData(blobs, datasetId, e.tableId, e.shards.value)[SchemaBlob(datasetId, e.tableId) := Json(List(e.fetched.value.schema))]
    else blobs
  }

  /** The data files an extract job writes are all listed under the table's dataset and id. */
  lemma {:induction false} WithDataHolds(blobs: map<string, Blob>, datasetId: string, tableId: string, n: nat, k: nat)
    requires k < n
    ensures DataBlob(datasetId, tableId, k) in WithData(blobs, datasetId, tableId, n)
    ensures WithData(blobs, datasetId, tableId, n)[DataBlob(datasetId, tableId, k)] == Parquet
  {
    if k < n - 1 {
      WithDataHolds(blobs, datasetId, tableId, n - 1, k);
    }
  }

  // ---------------------------------------------------------------------
  // exporter.py:51-65 and 151-187, regions and scheduled queries
  // ---------------------------------------------------------------------

  const FallbackRegions: seq<string> := ["US", "EU", "europe-north1"]

  predicate AllLocated(datasets: seq<Dataset>)
  {
    forall i :: 0 <= i < |datasets| ==> datasets[i].location.Some?
  }

  /** The locations of the datasets, without repetition. */
  function Locations(datasets: seq<Dataset>): set<string>
  {
    set i | 0 <= i < |datasets| && datasets[i].location.Some? :: datasets[i].location.value
  }

  /** The transfers whose data source is `scheduled_query`, in listing order (exporter.py:162-165). */
  function ScheduledOf(transfers: seq<Transfer>): (r: seq<Transfer>)
    ensures forall t :: t in r ==> t in transfers && t.dataSourceId == "scheduled_query"
  {
    if |transfers| == 0 then []
    else (if transfers[0].dataSourceId == "scheduled_query" then [transfers[0]] else []) + ScheduledOf(transfers[1..])
  }

  /** The parameters hold a textual query, so exporter.py:169 does not raise. */
  predicate HasQueryText(t: Transfer)
  {
    "query" in t.params && t.params["query"].Str?
  }

  /** The transfer with its query stripped of the qualifier (exporter.py:169). */
  function StrippedTransfer(t: Transfer, projectId: string): (s: Transfer)
    requires HasQueryText(t)
    ensures HasQueryText(s)
  {
    t.(params := t.params["query" := Str(StripQualifier(t.params["query"].s, projectId))])
  }

  /** The record of one scheduled query: stripped and serialized (exporter.py:169-171). */
  function ScheduledRecord(projectId: string): Transfer -> Value
  {
    t => if HasQueryText(t) then SerializeScheduledQuery(StrippedTransfer(t, projectId)) else Null
  }

  /**
   * The records one region contributes: its scheduled queries in order,
   * up to the first one without a textual query, whose failure ends the
   * region's turn (the records before it are kept).
   */
  function RegionRecords(queries: seq<Transfer>, projectId: string): (r: seq<Value>)
    ensures |r| <= |queries|
    ensures forall k :: 0 <= k < |r| ==>
      HasQueryText(queries[k]) && r[k] == SerializeScheduledQuery(StrippedTransfer(queries[k], projectId))
  {
    ScheduledRecordsAt(queries, projectId);
    MapPrefix(ScheduledRecord(projectId), queries, CountWhile(HasQueryText, queries))
  }

  /** Before the stopping point every query has a textual query, and its record is the stripped, serialized query. */
  lemma ScheduledRecordsAt(queries: seq<Transfer>, projectId: string)
    ensures forall k :: 0 <= k < CountWhile(HasQueryText, queries) ==>
      HasQueryText(queries[k])
      && MapPrefix(ScheduledRecord(projectId), queries, CountWhile(HasQueryText, queries))[k]
         == SerializeScheduledQuery(StrippedTransfer(queries[k], projectId))
  {
    var n := CountWhile(HasQueryText, queries);
    forall k | 0 <= k < n
      ensures HasQueryText(queries[k])
      ensures MapPrefix(ScheduledRecord(projectId), queries, n)[k] == SerializeScheduledQuery(StrippedTransfer(queries[k], projectId))
    {
      CountWhileHolds(HasQueryText, queries, k);
      MapPrefixAt(ScheduledRecord(projectId), queries, n, k);
    }
  }

  /** Every record is a scheduled-query record whose params_query is a text. */
  predicate QueryRecords(records: seq<Value>)
  {
    forall k :: 0 <= k < |records| ==>
      records[k].Dict? && "params_query" in records[k].entries && records[k].entries["params_query"].Str?
  }

  lemma QueryRecordsAppend(a: seq<Value>, b: seq<Value>)
    requires QueryRecords(a) && QueryRecords(b)
    ensures QueryRecords(a + b)
  {
    forall k | 0 <= k < |a + b|
      ensures (a + b)[k].Dict? && "params_query" in (a + b)[k].entries && (a + b)[k].entries["params_query"].Str?
    {
      if k >= |a| {
        assert (a + b)[k] == b[k - |a|];
      }
    }
  }

  /** The records of a region hold textual params_queries. */
  lemma RegionQueryRecords(queries: seq<Transfer>, projectId: string)
    ensures QueryRecords(RegionRecords(queries, projectId))
  {
    var r := RegionRecords(queries, projectId);
    forall k | 0 <= k < |r|
      ensures r[k].Dict? && "params_query" in r[k].entries && r[k].entries["params_query"].Str?
    {
      var t := StrippedTransfer(queries[k], projectId);
      assert r[k] == SerializeScheduledQuery(t);
      assert "query" in t.params;
    }
  }

  /** A region whose listing fails contributes nothing. */
  function RegionExport(transfers: map<string, seq<Transfer>>, projectId: string, region: string): (r: seq<Value>)
    ensures QueryRecords(r)
  {
    if region in transfers then
      RegionQueryRecords(ScheduledOf(transfers[region]), projectId);
      RegionRecords(ScheduledOf(transfers[region]), projectId)
    else []
  }

  /** `all_queries` after visiting the regions in order: each a scheduled-query record with a textual params_query. */
  function ScheduledQueryRecords(transfers: map<string, seq<Transfer>>, projectId: string, regions: seq<string>)
    : (r: seq<Value>)
    ensures QueryRecords(r)
  {
    if |regions| == 0 then []
    else
      var init := regions[..|regions| - 1];
      var last := regions[|regions| - 1];
      QueryRecordsAppend(ScheduledQueryRecords(transfers, projectId, init), RegionExport(transfers, projectId, last));
      ScheduledQueryRecords(transfers, projectId, init) + RegionExport(transfers, projectId, last)
  }

  /** Visiting two runs of regions one after the other concatenates their records. */
  lemma {:induction false} ScheduledQueryRecordsAppend(transfers: map<string, seq<Transfer>>, projectId: string,
                                                       a: seq<string>, b: seq<string>)
    ensures ScheduledQueryRecords(transfers, projectId, a + b)
      == ScheduledQueryRecords(transfers, projectId, a) + ScheduledQueryRecords(transfers, projectId, b)
    decreases |b|
  {
    if |b| == 0 {
      assert a + b == a;
    } else {
      var ab, init, last := a + b, b[..|b| - 1], b[|b| - 1];
      assert ab[..|ab| - 1] == a + init;
      assert ab[|ab| - 1] == last;
      assert ScheduledQueryRecords(transfers, projectId, ab)
        == ScheduledQueryRecords(transfers, projectId, a + init) + RegionExport(transfers, projectId, last);
      ScheduledQueryRecordsAppend(transfers, projectId, a, init);
    }
  }

  /** Visiting only a region whose listing fails yields no record. */
  lemma FailingRegionHasNoRecords(transfers: map<string, seq<Transfer>>, projectId: string, region: string)
    requires region !in transfers
    ensures ScheduledQueryRecords(transfers, projectId, [region]) == []
  {
    assert [region][..0] == [];
  }

  /** A region whose listing fails contributes nothing, and the regions after it are still exported. */
  lemma FailingRegionIsSkipped(transfers: map<string, seq<Transfer>>, projectId: string,
                               a: seq<string>, region: string, b: seq<string>)
    requires region !in transfers
    ensures ScheduledQueryRecords(transfers, projectId, a + [region] + b)
      == ScheduledQueryRecords(transfers, projectId, a + b)
  {
    var records := ScheduledQueryRecords(transfers, projectId, a) + ScheduledQueryRecords(transfers, projectId, b);
    FailingRegionHasNoRecords(transfers, projectId, region);
    ScheduledQueryRecordsAppend(transfers, projectId, a, [region]);
    ScheduledQueryRecordsAppend(transfers, projectId, a + [region], b);
    ScheduledQueryRecordsAppend(transfers, projectId, a, b);
    assert ScheduledQueryRecords(transfers, projectId, a + [region] + b) == records;
  }

  /**
   * A region's records are its first `j` scheduled queries, stripped and
   * serialized, when the first `j` hold a textual query and the next one
   * (if any) does not.
   */
  lemma RegionRecordsPrefix(queries: seq<Transfer>, projectId: string, j: nat)
    requires j <= |queries|
    requires forall k :: 0 <= k < j ==> HasQueryText(queries[k])
    requires j < |queries| ==> !HasQueryText(queries[j])
    ensures |RegionRecords(queries, projectId)| == j
    ensures forall k :: 0 <= k < j ==>
      RegionRecords(queries, projectId)[k] == SerializeScheduledQuery(StrippedTransfer(queries[k], projectId))
  {
    if j < CountWhile(HasQueryText, queries) {
      CountWhileHolds(HasQueryText, queries, j);
    }
    assert CountWhile(HasQueryText, queries) == j;
    forall k | 0 <= k < j
      ensures RegionRecords(queries, projectId)[k] == SerializeScheduledQuery(StrippedTransfer(queries[k], projectId))
    {
      MapPrefixAt(ScheduledRecord(projectId), queries, j, k);
    }
  }

  /** Only scheduled queries are exported, each with its qualifier-stripped query as params_query. */
  lemma RegionRecordsAreScheduledQueries(queries: seq<Transfer>, projectId: string, k: nat)
    requires forall t :: t in queries ==> t.dataSourceId == "scheduled_query"
    requires k < |RegionRecords(queries, projectId)|
    ensures k < |queries| && HasQueryText(queries[k])
    ensures RegionRecords(queries, projectId)[k].Dict?
    ensures "data_source_id" in RegionRecords(queries, projectId)[k].entries
    ensures "params_query" in RegionRecords(queries, projectId)[k].entries
    ensures RegionRecords(queries, projectId)[k].entries["data_source_id"] == Str("scheduled_query")
    ensures RegionRecords(queries, projectId)[k].entries["params_query"]
      == Str(StripQualifier(queries[k].params["query"].s, projectId))
  {
    assert queries[k] in queries;
    var t := StrippedTransfer(queries[k], projectId);
    ScheduledQueryRecordFields(t);
    assert "query" in t.params.Keys;
    assert t.params["query"] == Str(StripQualifier(queries[k].params["query"].s, projectId));
  }

  // ---------------------------------------------------------------------
  // exporter.py:189-226, the tasks export_project submits
  // ---------------------------------------------------------------------

  datatype Task =
    | RoutinesTask(dataset: Dataset)
    | ViewsTask(dataset: Dataset)
    | ExternalTablesTask(dataset: Dataset)
    | TableTask(dataset: Dataset, table: TableEntry)

  /** One export_table task per `TABLE`-typed table, in listing order (exporter.py:208-211). */
  function TableTasks(d: Dataset, tables: seq<TableEntry>): (tasks: seq<Task>)
    ensures |tasks| == |OfType(tables, "TABLE")|
  {
    if |tables| == 0 then []
    else
      var last := tables[|tables| - 1];
      OfTypeOfPrefix(tables, "TABLE", |tables| - 1);
      assert tables[|tables| - 1..] == [last];
      TableTasks(d, tables[..|tables| - 1]) + (if last.tableType == "TABLE" then [TableTask(d, last)] else [])
  }

  /** Table listings cannot fail where the tables component needs them. */
  predicate TablesListed(datasets: seq<Dataset>, components: seq<Component>)
  {
    Tables in components ==> forall i :: 0 <= i < |datasets| ==> datasets[i].tables.Some?
  }

  /** The records tasks of one dataset, submitted before its tables are listed (exporter.py:201-206). */
  function RecordsTasks(d: Dataset, components: seq<Component>): (tasks: seq<Task>)
    ensures |tasks| == PerDataset(components)
    ensures forall t :: t in tasks ==> !t.TableTask? && t.dataset == d && TaskComponent(t) in components
  {
    (if Routines in components then [RoutinesTask(d)] else [])
    + (if Views in components then [ViewsTask(d)] else [])
    + (if ExternalTables in components then [ExternalTablesTask(d)] else [])
  }

  /** The tasks submitted for one dataset (exporter.py:201-211). */
  function DatasetTasks(d: Dataset, components: seq<Component>): seq<Task>
    requires Tables in components ==> d.tables.Some?
  {
    (if Routines in components then [RoutinesTask(d)] else [])
    + (if Views in components then [ViewsTask(d)] else [])
    + (if ExternalTables in components then [ExternalTablesTask(d)] else [])
    + (if Tables in components then TableTasks(d, d.tables.value) else [])
  }

  /** The position of the first dataset whose needed table listing fails, or the count when none does. */
  function FirstUnlisted(datasets: seq<Dataset>, components: seq<Component>): (k: nat)
    ensures k <= |datasets|
    ensures Tables in components ==> forall j :: 0 <= j < k ==> datasets[j].tables.Some?
    ensures k < |datasets| ==> Tables in components && datasets[k].tables.None?
    ensures k == |datasets| <==> TablesListed(datasets, components)
    ensures TablesListed(datasets[..k], components)
  {
    if Tables !in components || |datasets| == 0 then |datasets|
    else if datasets[0].tables.None? then 0
    else
      var k := FirstUnlisted(datasets[1..], components);
      assert forall j :: 1 <= j < |datasets| ==> datasets[j] == datasets[1..][j - 1];
      1 + k
  }

  /**
   * What export_project has submitted when its loop ends: every task when
   * each needed listing succeeds; otherwise the tasks of the datasets
   * before the first failing listing, then that dataset's records tasks,
   * which were submitted before the listing raised (exporter.py:201-208).
   */
  function SubmittedTasks(datasets: seq<Dataset>, components: seq<Component>): seq<Task>
  {
    var k := FirstUnlisted(datasets, components);
    if k == |datasets| then ExportTasks(datasets, components)
    else ExportTasks(datasets[..k], components) + RecordsTasks(datasets[k], components)
  }

  /** The submitted tasks start with those of every dataset before the first unlisted one. */
  lemma SubmittedTasksExtendListed(datasets: seq<Dataset>, components: seq<Component>)
    ensures ExportTasks(datasets[..FirstUnlisted(datasets, components)], components) <= SubmittedTasks(datasets, components)
  {
    var k := FirstUnlisted(datasets, components);
    if k == |datasets| {
      assert datasets[..k] == datasets;
    }
  }

  /**
   * A submission stopped by a failing listing at dataset `k` still holds
   * one task per requested per-dataset component for each of the first
   * `k + 1` datasets, and the table tasks of the first `k`.
   */
  lemma SubmittedTasksLength(datasets: seq<Dataset>, components: seq<Component>)
    requires !TablesListed(datasets, components)
    ensures var k := FirstUnlisted(datasets, components);
      |SubmittedTasks(datasets, components)| == PerDataset(components) * (k + 1) + TableTotal(datasets[..k])
  {
    var k := FirstUnlisted(datasets, components);
    ExportTasksLength(datasets[..k], components);
    MulSucc(PerDataset(components), k);
  }

  /**
   * The tasks submitted for the datasets, in config order: one per dataset
   * for each requested per-dataset component, plus one per `TABLE` table.
   */
  function ExportTasks(datasets: seq<Dataset>, components: seq<Component>): seq<Task>
    requires TablesListed(datasets, components)
  {
    if |datasets| == 0 then []
    else
      var init := datasets[..|datasets| - 1];
      assert TablesListed(init, components);
      ExportTasks(init, components) + DatasetTasks(datasets[|datasets| - 1], components)
  }

  /** One task per dataset for each requested per-dataset component, plus one per `TABLE` table. */
  lemma {:induction false} ExportTasksLength(datasets: seq<Dataset>, components: seq<Component>)
    requires TablesListed(datasets, components)
    ensures |ExportTasks(datasets, components)|
      == PerDataset(components) * |datasets| + (if Tables in components then TableTotal(datasets) else 0)
  {
    if |datasets| > 0 {
      var init := datasets[..|datasets| - 1];
      assert TablesListed(init, components);
      ExportTasksLength(init, components);
      DatasetTasksLength(datasets[|datasets| - 1], components);
      MulSucc(PerDataset(components), |init|);
    }
  }

  /** One more listed dataset extends the submitted task list by that dataset's tasks. */
  lemma ExportTasksSnoc(datasets: seq<Dataset>, i: nat, components: seq<Component>)
    requires i < |datasets|
    requires TablesListed(datasets[..i], components)
    requires Tables in components ==> datasets[i].tables.Some?
    ensures TablesListed(datasets[..i + 1], components)
    ensures ExportTasks(datasets[..i + 1], components)
      == ExportTasks(datasets[..i], components) + DatasetTasks(datasets[i], components)
  {
    assert datasets[..i + 1][..i] == datasets[..i];
    assert forall k :: 0 <= k < i ==> datasets[..i + 1][k] == datasets[..i][k];
  }

  /**
   * The first dataset whose listing fails, after a listed prefix, is where
   * the submission stops: there the submitted tasks are the prefix's
   * followed by that dataset's records tasks.
   */
  lemma SubmittedUpToUnlisted(datasets: seq<Dataset>, i: nat, components: seq<Component>)
    requires i < |datasets| && TablesListed(datasets[..i], components)
    requires Tables in components && datasets[i].tables.None?
    ensures !TablesListed(datasets, components)
    ensures FirstUnlisted(datasets, components) == i
    ensures SubmittedTasks(datasets, components) == ExportTasks(datasets[..i], components) + RecordsTasks(datasets[i], components)
  {
  }

  /** The number of `TABLE`-typed tables of each dataset, summed. */
  function TableTotal(datasets: seq<Dataset>): nat
    requires forall i :: 0 <= i < |datasets| ==> datasets[i].tables.Some?
  {
    if |datasets| == 0 then 0
    else TableTotal(datasets[..|datasets| - 1]) + |OfType(datasets[|datasets| - 1].tables.value, "TABLE")|
  }

  lemma DatasetTasksLength(d: Dataset, components: seq<Component>)
    requires Tables in components ==> d.tables.Some?
    ensures |DatasetTasks(d, components)|
      == PerDataset(components) + (if Tables in components then |OfType(d.tables.value, "TABLE")| else 0)
  {
  }

  lemma MulSucc(p: nat, n: nat)
    ensures p * (n + 1) == p * n + p
  {
  }

  // ---------------------------------------------------------------------
  // What the submitted tasks leave in the bucket
  // ---------------------------------------------------------------------

  /** A records blob, saved when every call succeeded (exporter.py:83, 101, 113); otherwise nothing is written. */
  function SaveRecords(blobs: map<string, Blob>, name: string, records: Option<seq<Value>>): map<string, Blob>
  {
    if records.Some? then blobs[name := Json(List(records.value))] else blobs
  }

  /** The bucket after one submitted task ran (exporter.py:67-149); no blob is ever deleted. */
  function TaskEffect(blobs: map<string, Blob>, projectId: string, t: Task): (r: map<string, Blob>)
    ensures blobs.Keys <= r.Keys
  {
    match t
    case RoutinesTask(d) => SaveRecords(blobs, RoutinesBlob(d.datasetId), RoutinesExport(d, projectId))
    case ViewsTask(d) => SaveRecords(blobs, ViewsBlob(d.datasetId), ViewsExport(d, projectId))
    case ExternalTablesTask(d) => SaveRecords(blobs, ExternalTablesBlob(d.datasetId), ExternalTablesExport(d))
    case TableTask(d, e) => TableExport(blobs, d.datasetId, e)
  }

  /** The bucket after the tasks ran one after another, in submission order; no blob is ever deleted. */
  function RunTasks(blobs: map<string, Blob>, projectId: string, tasks: seq<Task>): (r: map<string, Blob>)
    ensures blobs.Keys <= r.Keys
  {
    if |tasks| == 0 then blobs
    else TaskEffect(RunTasks(blobs, projectId, tasks[..|tasks| - 1]), projectId, tasks[|tasks| - 1])
  }

  /** The component a task belongs to. */
  function TaskComponent(t: Task): Component
  {
    match t
    case RoutinesTask(_) => Routines
    case ViewsTask(_) => Views
    case ExternalTablesTask(_) => ExternalTables
    case TableTask(_, _) => Tables
  }

  /** The blob a records task saves. */
  function RecordsBlob(t: Task): string
    requires !t.TableTask?
  {
    match t
    case RoutinesTask(d) => RoutinesBlob(d.datasetId)
    case ViewsTask(d) => ViewsBlob(d.datasetId)
    case ExternalTablesTask(d) => ExternalTablesBlob(d.datasetId)
  }

  /** The names a task may write: its records blob, or a table's schema file and names ending in `.parquet`. */
  predicate MayWrite(t: Task, name: string)
  {
    if t.TableTask? then name == SchemaBlob(t.dataset.datasetId, t.table.tableId) || EndsWith(name, ".parquet")
    else name == RecordsBlob(t)
  }

  /** An extract job leaves every name that does not end in `.parquet` as it was. */
  lemma {:induction false} WithDataElsewhere(blobs: map<string, Blob>, datasetId: string, tableId: string, n: nat,
                                             name: string)
    requires !EndsWith(name, ".parquet")
    ensures Lookup(WithData(blobs, datasetId, tableId, n), name) == Lookup(blobs, name)
  {
    if n > 0 {
      WithDataElsewhere(blobs, datasetId, tableId, n - 1, name);
      DataBlobIsData(datasetId, tableId, n - 1);
    }
  }

  /** A task leaves every name it does not write as it was. */
  lemma TaskEffectElsewhere(blobs: map<string, Blob>, projectId: string, t: Task, name: string)
    requires !MayWrite(t, name)
    ensures Lookup(TaskEffect(blobs, projectId, t), name) == Lookup(blobs, name)
  {
    if t.TableTask? && t.table.fetched.Some? && t.table.shards.Some? {
      WithDataElsewhere(blobs, t.dataset.datasetId, t.table.tableId, t.table.shards.value, name);
    }
  }

  /** Tasks none of which writes a name leave it as it was. */
  lemma {:induction false} RunTasksElsewhere(blobs: map<string, Blob>, projectId: string, tasks: seq<Task>, name: string)
    requires forall k :: 0 <= k < |tasks| ==> !MayWrite(tasks[k], name)
    ensures Lookup(RunTasks(blobs, projectId, tasks), name) == Lookup(blobs, name)
  {
    if |tasks| > 0 {
      var init := tasks[..|tasks| - 1];
      assert forall k :: 0 <= k < |init| ==> init[k] == tasks[k];
      RunTasksElsewhere(blobs, projectId, init, name);
      TaskEffectElsewhere(RunTasks(blobs, projectId, init), projectId, tasks[|tasks| - 1], name);
    }
  }

  /** No task writes the scheduled-query blob. */
  lemma TasksKeepScheduledQueries(blobs: map<string, Blob>, projectId: string, tasks: seq<Task>)
    ensures Lookup(RunTasks(blobs, projectId, tasks), ScheduledQueriesBlob) == Lookup(blobs, ScheduledQueriesBlob)
  {
    forall k | 0 <= k < |tasks| ensures !MayWrite(tasks[k], ScheduledQueriesBlob) {
      var t := tasks[k];
      ExportNamesDiffer("", t.dataset.datasetId, t.dataset.datasetId, if t.TableTask? then t.table.tableId else "");
      JsonBlobsAreNotData("", "", "");
    }
    RunTasksElsewhere(blobs, projectId, tasks, ScheduledQueriesBlob);
  }

  /** No task writes the project's configuration blob. */
  lemma TasksKeepConfig(blobs: map<string, Blob>, projectId: string, tasks: seq<Task>)
    ensures Lookup(RunTasks(blobs, projectId, tasks), ConfigBlob(projectId)) == Lookup(blobs, ConfigBlob(projectId))
  {
    forall k | 0 <= k < |tasks| ensures !MayWrite(tasks[k], ConfigBlob(projectId)) {
      var t := tasks[k];
      OnlyConfigBlobIsConfigName(projectId, t.dataset.datasetId, if t.TableTask? then t.table.tableId else "", 0);
      JsonBlobsAreNotData(projectId, "", "");
    }
    RunTasksElsewhere(blobs, projectId, tasks, ConfigBlob(projectId));
  }

  /** Only a task of the same kind, for a dataset with the same id, may write a records task's blob. */
  lemma RecordsBlobWriter(u: Task, t: Task)
    requires !t.TableTask? && MayWrite(u, RecordsBlob(t))
    ensures !u.TableTask? && TaskComponent(u) == TaskComponent(t) && u.dataset.datasetId == t.dataset.datasetId
  {
    ExportNamesDiffer(u.dataset.datasetId, t.dataset.datasetId, u.dataset.datasetId,
                      if u.TableTask? then u.table.tableId else "");
    ExportNamesDiffer(t.dataset.datasetId, u.dataset.datasetId, u.dataset.datasetId, "");
    JsonBlobsAreNotData("", t.dataset.datasetId, "");
  }

  /**
   * When every task that may write a records task's blob is that task, the
   * blob ends up as the task leaves it, or as it was when the task never ran.
   */
  lemma {:induction false} SoleWriter(blobs: map<string, Blob>, projectId: string, tasks: seq<Task>, t: Task)
    requires !t.TableTask?
    requires forall k :: 0 <= k < |tasks| && MayWrite(tasks[k], RecordsBlob(t)) ==> tasks[k] == t
    ensures Lookup(RunTasks(blobs, projectId, tasks), RecordsBlob(t))
      == if t in tasks then Lookup(TaskEffect(blobs, projectId, t), RecordsBlob(t)) else Lookup(blobs, RecordsBlob(t))
  {
    if |tasks| > 0 {
      var init, last := tasks[..|tasks| - 1], tasks[|tasks| - 1];
      assert forall k :: 0 <= k < |init| ==> init[k] == tasks[k];
      InSnoc(tasks, t);
      SoleWriter(blobs, projectId, init, t);
      if last != t {
        TaskEffectElsewhere(RunTasks(blobs, projectId, init), projectId, last, RecordsBlob(t));
      }
    }
  }

  /** Every exported task belongs to one of the datasets and to a requested component. */
  lemma {:induction false} ExportTaskOrigin(datasets: seq<Dataset>, components: seq<Component>, t: Task)
    requires TablesListed(datasets, components)
    requires t in ExportTasks(datasets, components)
    ensures t.dataset in datasets && TaskComponent(t) in components
  {
    var init, last := datasets[..|datasets| - 1], datasets[|datasets| - 1];
    assert TablesListed(init, components);
    if t in ExportTasks(init, components) {
      ExportTaskOrigin(init, components, t);
      assert t.dataset in init;
    } else {
      assert t in DatasetTasks(last, components);
      if t in (if Tables in components then TableTasks(last, last.tables.value) else []) {
        TableTasksOrigin(last, last.tables.value, t);
      }
    }
  }

  /** The table tasks are table tasks of their dataset, each for a `TABLE`-typed table of the listing. */
  lemma {:induction false} TableTasksOrigin(d: Dataset, tables: seq<TableEntry>, t: Task)
    requires t in TableTasks(d, tables)
    ensures t.TableTask? && t.dataset == d
    ensures t.table in tables && t.table.tableType == "TABLE"
  {
    var init := tables[..|tables| - 1];
    if t in TableTasks(d, init) {
      TableTasksOrigin(d, init, t);
      InSnoc(tables, t.table);
    }
  }

  /** Every task of a dataset is among the exported tasks. */
  lemma {:induction false} DatasetTasksAreExported(datasets: seq<Dataset>, components: seq<Component>, i: nat, t: Task)
    requires TablesListed(datasets, components) && i < |datasets|
    requires t in DatasetTasks(datasets[i], components)
    ensures t in ExportTasks(datasets, components)
  {
    var init := datasets[..|datasets| - 1];
    if i < |init| {
      InitListed(datasets, components, i);
      DatasetTasksAreExported(init, components, i, t);
      EarlierTasksAreExported(datasets, components, t);
    } else {
      LastTasksAreExported(datasets, components, t);
    }
  }

  /** The datasets before the last one are listed too, and dataset `i` is among them. */
  lemma InitListed(datasets: seq<Dataset>, components: seq<Component>, i: nat)
    requires TablesListed(datasets, components) && i < |datasets| - 1
    ensures TablesListed(datasets[..|datasets| - 1], components)
    ensures datasets[..|datasets| - 1][i] == datasets[i]
  {
  }

  lemma EarlierTasksAreExported(datasets: seq<Dataset>, components: seq<Component>, t: Task)
    requires TablesListed(datasets, components) && |datasets| > 0
    requires TablesListed(datasets[..|datasets| - 1], components)
    requires t in ExportTasks(datasets[..|datasets| - 1], components)
    ensures t in ExportTasks(datasets, components)
  {
  }

  lemma LastTasksAreExported(datasets: seq<Dataset>, components: seq<Component>, t: Task)
    requires TablesListed(datasets, components) && |datasets| > 0
    requires t in DatasetTasks(datasets[|datasets| - 1], components)
    ensures t in ExportTasks(datasets, components)
  {
  }

  /** With distinct dataset ids, a task of one of the datasets that may write the blob of a records task is that task. */
  lemma OnlyRecordsWriter(datasets: seq<Dataset>, i: nat, t: Task, u: Task)
    requires Distinct(DatasetIds(datasets)) && i < |datasets| && !t.TableTask? && t.dataset == datasets[i]
    requires u.dataset in datasets && MayWrite(u, RecordsBlob(t))
    ensures u == t
  {
    RecordsBlobWriter(u, t);
    var j :| 0 <= j < |datasets| && datasets[j] == u.dataset;
    assert DatasetIds(datasets)[j] == DatasetIds(datasets)[i];
    assert u.dataset == t.dataset;
  }

  /** With distinct dataset ids, a records task of dataset `i` is the only exported task that may write its blob. */
  lemma RecordsBlobAfterExport(blobs: map<string, Blob>, projectId: string, datasets: seq<Dataset>,
                               components: seq<Component>, i: nat, t: Task)
    requires TablesListed(datasets, components) && Distinct(DatasetIds(datasets))
    requires i < |datasets| && !t.TableTask? && t.dataset == datasets[i]
    ensures Lookup(RunTasks(blobs, projectId, ExportTasks(datasets, components)), RecordsBlob(t))
      == if TaskComponent(t) in components then Lookup(TaskEffect(blobs, projectId, t), RecordsBlob(t))
         else Lookup(blobs, RecordsBlob(t))
  {
    var tasks := ExportTasks(datasets, components);
    forall k | 0 <= k < |tasks| && MayWrite(tasks[k], RecordsBlob(t)) ensures tasks[k] == t {
      ExportTaskOrigin(datasets, components, tasks[k]);
      OnlyRecordsWriter(datasets, i, t, tasks[k]);
    }
    SoleWriter(blobs, projectId, tasks, t);
    if TaskComponent(t) in components {
      assert t in DatasetTasks(datasets[i], components);
      DatasetTasksAreExported(datasets, components, i, t);
    } else if t in tasks {
      ExportTaskOrigin(datasets, components, t);
    }
  }

  /**
   * After the tasks of a complete submission ran, where dataset ids are
   * distinct: each requested records blob of a dataset holds the records
   * its task saved, and a blob whose task saved nothing, or was not
   * requested, is as it was.
   */
  lemma ExportLeavesRecords(blobs: map<string, Blob>, projectId: string, datasets: seq<Dataset>,
                            components: seq<Component>, i: nat)
    requires TablesListed(datasets, components) && Distinct(DatasetIds(datasets)) && i < |datasets|
    ensures var d, after := datasets[i], RunTasks(blobs, projectId, ExportTasks(datasets, components));
      Lookup(after, RoutinesBlob(d.datasetId))
        == if Routines in components && RoutinesExport(d, projectId).Some?
           then Some(List(RoutinesExport(d, projectId).value)) else Lookup(blobs, RoutinesBlob(d.datasetId))
    ensures var d, after := datasets[i], RunTasks(blobs, projectId, ExportTasks(datasets, components));
      Lookup(after, ViewsBlob(d.datasetId))
        == if Views in components && ViewsExport(d, projectId).Some?
           then Some(List(ViewsExport(d, projectId).value)) else Lookup(blobs, ViewsBlob(d.datasetId))
    ensures var d, after := datasets[i], RunTasks(blobs, projectId, ExportTasks(datasets, components));
      Lookup(after, ExternalTablesBlob(d.datasetId))
        == if ExternalTables in components && ExternalTablesExport(d).Some?
           then Some(List(ExternalTablesExport(d).value)) else Lookup(blobs, ExternalTablesBlob(d.datasetId))
  {
    var d := datasets[i];
    var r, v, e := RoutinesTask(d), ViewsTask(d), ExternalTablesTask(d);
    RecordsBlobAfterExport(blobs, projectId, datasets, components, i, r);
    SavedRecords(blobs, RoutinesBlob(d.datasetId), RoutinesExport(d, projectId));
    RecordsBlobAfterExport(blobs, projectId, datasets, components, i, v);
    SavedRecords(blobs, ViewsBlob(d.datasetId), ViewsExport(d, projectId));
    RecordsBlobAfterExport(blobs, projectId, datasets, components, i, e);
    SavedRecords(blobs, ExternalTablesBlob(d.datasetId), ExternalTablesExport(d));
  }

  /** A saved records blob reads back as the list of its records; otherwise the name keeps its value. */
  lemma SavedRecords(blobs: map<string, Blob>, name: string, records: Option<seq<Value>>)
    ensures Lookup(SaveRecords(blobs, name, records), name)
      == if records.Some? then Some(List(records.value)) else Lookup(blobs, name)
  {
  }

  // ---------------------------------------------------------------------
  // The exporter
  // ---------------------------------------------------------------------

  class Exporter {
    const projectId: string
    const bucketName: string
    const project: Project
    const store: Store
    const progress: ProgressBar

    constructor (projectId: string, bucketName: string, project: Project, store: Store, progress: ProgressBar)
      ensures this.projectId == projectId && this.bucketName == bucketName && this.project == project
      ensures this.store == store && this.progress == progress
    {
      this.projectId := projectId;
      this.bucketName := bucketName;
      this.project := project;
      this.store := store;
      this.progress := progress;
    }

    /** exporter.py:67-88: the routine records of the dataset, saved when no call failed. */
    method ExportRoutines(d: Dataset)
      requires store.Valid()
      modifies store, progress
      ensures store.Valid()
      ensures progress.count == old(progress.count) + 1
      ensures RoutinesExport(d, projectId).Some? ==>
        store.blobs == old(store.blobs)[RoutinesBlob(d.datasetId) := Json(List(RoutinesExport(d, projectId).value))]
      ensures RoutinesExport(d, projectId).None? ==> store.blobs == old(store.blobs)
    {
      if d.routines.Some? {
        var entries := d.routines.value;
        var acc: seq<Value> := [];
        var ok := true;
        var i := 0;
        assert entries[i..] == entries;
        PrependNothing(RoutineRecords(entries, projectId));
        while i < |entries| && ok
          modifies {}
          invariant 0 <= i <= |entries|
          invariant ok ==> RoutineRecords(entries, projectId) == Prepend(acc, RoutineRecords(entries[i..], projectId))
          invariant !ok ==> RoutineRecords(entries, projectId).None?
          decreases |entries| - i, ok
        {
          var e := entries[i];
          RoutineRecordsStep(entries, projectId, i);
          match e.fetch {
            case FetchFailed => ok := false;
            case Fetched(body) =>
              if body.None? {
                ok := false;
              } else {
                var routine := ExportedRoutine(e, body.value, projectId);
                if body.value == "" {
                  i := i + 1;
                } else {
                  var record := SerializeRoutine(routine);
                  if record.None? {
                    ok := false;
                  } else {
                    PrependTwice(acc, [record.value], RoutineRecords(entries[i + 1..], projectId));
                    acc := acc + [record.value];
                    i := i + 1;
                  }
                }
              }
          }
        }
        if ok {
          assert entries[i..] == [];
          assert acc + [] == acc;
          store.Save(RoutinesBlob(d.datasetId), List(acc));
        }
      }
      progress.Increment();
    }

    /** exporter.py:90-106: the view records of the dataset, saved when no call failed. */
    method ExportViews(d: Dataset)
      requires store.Valid()
      modifies store, progress
      ensures store.Valid()
      ensures progress.count == old(progress.count) + 1
      ensures ViewsExport(d, projectId).Some? ==>
        store.blobs == old(store.blobs)[ViewsBlob(d.datasetId) := Json(List(ViewsExport(d, projectId).value))]
      ensures ViewsExport(d, projectId).None? ==> store.blobs == old(store.blobs)
    {
      if d.tables.Some? {
        var fetched := FetchAll(OfType(d.tables.value, "VIEW"));
        if fetched.Some? {
          var views := fetched.value;
          var acc: seq<Value> := [];
          var i := 0;
          while i < |views| && views[i].viewQuery.Some?
            modifies {}
            invariant 0 <= i <= |views|
            invariant |acc| == i
            invariant forall k :: 0 <= k < i ==> views[k].viewQuery.Some? && acc[k] == SerializeView(ExportedView(views[k], projectId))
          {
            var view := ExportedView(views[i], projectId);
            acc := acc + [SerializeView(view)];
            i := i + 1;
          }
          if i == |views| {
            ViewRecordsAre(views, projectId, acc);
            store.Save(ViewsBlob(d.datasetId), List(acc));
          } else {
            assert ViewRecords(views, projectId).None?;
          }
        }
      }
      progress.Increment();
    }

    /** exporter.py:108-118: the external-table records of the dataset, saved when no call failed. */
    method ExportExternalTables(d: Dataset)
      requires store.Valid()
      modifies store, progress
      ensures store.Valid()
      ensures progress.count == old(progress.count) + 1
      ensures ExternalTablesExport(d).Some? ==>
        store.blobs == old(store.blobs)[ExternalTablesBlob(d.datasetId) := Json(List(ExternalTablesExport(d).value))]
      ensures ExternalTablesExport(d).None? ==> store.blobs == old(store.blobs)
    {
      var records := ExternalTablesExport(d);
      if records.Some? {
        store.Save(ExternalTablesBlob(d.datasetId), List(records.value));
      }
      progress.Increment();
    }

    /**
     * exporter.py:120-149: the extract job writes the table's data files,
     * then the schema is saved; a failed fetch or job writes nothing more.
     */
    method ExportTable(d: Dataset, e: TableEntry)
      requires store.Valid()
      modifies store, progress
      ensures store.Valid()
      ensures progress.count == old(progress.count) + 1
      ensures store.blobs == TableExport(old(store.blobs), d.datasetId, e)
    {
      if e.fetched.Some? && e.shards.Some? {
        var schema := e.fetched.value.schema;
        var k := 0;
        while k < e.shards.value
          modifies store
          invariant 0 <= k <= e.shards.value
          invariant store.Valid()
          invariant store.blobs == WithData(old(store.blobs), d.datasetId, e.tableId, k)
        {
          store.PutData(DataBlob(d.datasetId, e.tableId, k));
          k := k + 1;
        }
        store.Save(SchemaBlob(d.datasetId, e.tableId), List(schema));
      }
      progress.Increment();
    }

    /**
     * exporter.py:51-65: the distinct dataset locations in some order when
     * every dataset reports one, else exactly the fallback list.
     */
    method GetAllRegions() returns (regions: seq<string>)
      ensures AllLocated(project.datasets) ==>
        Distinct(regions) && forall r :: r in regions <==> r in Locations(project.datasets)
      ensures !AllLocated(project.datasets) ==> regions == FallbackRegions
    {
      var datasets := project.datasets;
      var found: set<string> := {};
      var i := 0;
      while i < |datasets|
        invariant 0 <= i <= |datasets|
        invariant AllLocated(datasets[..i])
        invariant found == Locations(datasets[..i])
      {
        if datasets[i].location.None? {
          assert !AllLocated(datasets);
          return FallbackRegions;
        }
        assert Locations(datasets[..i + 1]) == Locations(datasets[..i]) + {datasets[i].location.value} by {
          assert forall j :: 0 <= j < i ==> datasets[..i + 1][j] == datasets[..i][j];
        }
        found := found + {datasets[i].location.value};
        i := i + 1;
      }
      assert datasets[..i] == datasets;
      // list(regions): Python's set iteration order is not specified
      regions := [];
      var rest := found;
      while rest != {}
        invariant rest <= found
        invariant Distinct(regions)
        invariant forall r :: r in regions <==> r in found && r !in rest
        decreases |rest|
      {
        var r :| r in rest;
        regions := regions + [r];
        rest := rest - {r};
      }
    }

    /** The records of one region's turn in exporter.py:156-176. */
    method ExportRegion(region: string) returns (records: seq<Value>)
      ensures records == RegionExport(project.transfers, projectId, region)
    {
      records := [];
      if region in project.transfers {
        // exporter.py:167-172: each query is stripped and serialized, until one lacks a textual query
        records := MapWhile(ScheduledOf(project.transfers[region]), HasQueryText, ScheduledRecord(projectId));
      }
    }

    /**
     * exporter.py:151-187: the regions are visited in the order
     * get_all_regions gives (`regions`), each contributing its records;
     * the list is saved even when it is empty.
     */
    method ExportScheduledQueries() returns (ghost regions: seq<string>)
      requires store.Valid()
      modifies store, progress
      ensures store.Valid()
      ensures progress.count == old(progress.count) + 1
      ensures AllLocated(project.datasets) ==>
        Distinct(regions) && forall r :: r in regions <==> r in Locations(project.datasets)
      ensures !AllLocated(project.datasets) ==> regions == FallbackRegions
      ensures store.blobs == old(store.blobs)[ScheduledQueriesBlob :=
        Json(List(ScheduledQueryRecords(project.transfers, projectId, regions)))]
    {
      var visit := GetAllRegions();
      regions := visit;
      var all := CollectRecords(visit);
      store.Save(ScheduledQueriesBlob, List(all));
      progress.Increment();
    }

    /** The records of the regions, visited in the given order. */
    method CollectRecords(visit: seq<string>) returns (all: seq<Value>)
      ensures all == ScheduledQueryRecords(project.transfers, projectId, visit)
    {
      all := [];
      var i := 0;
      while i < |visit|
        invariant 0 <= i <= |visit|
        invariant all == ScheduledQueryRecords(project.transfers, projectId, visit[..i])
      {
        var records := ExportRegion(visit[i]);
        assert visit[..i + 1][..i] == visit[..i];
        all := all + records;
        i := i + 1;
      }
      assert visit[..i] == visit;
    }

    /** Runs one submitted task. */
    method RunTask(t: Task)
      requires store.Valid()
      modifies store, progress
      ensures store.Valid()
      ensures progress.count == old(progress.count) + 1
      ensures store.blobs == TaskEffect(old(store.blobs), projectId, t)
      ensures forall n :: IsConfigName(n) ==> store.Read(n) == old(store.Read(n))
    {
      ghost var before := store.blobs;
      match t {
        case RoutinesTask(d) =>
          ExportRoutines(d);
          OnlyConfigBlobIsConfigName(projectId, d.datasetId, "", 0);
          var records := RoutinesExport(d, projectId);
          if records.Some? {
            SaveKeepsConfig(before, RoutinesBlob(d.datasetId), Json(List(records.value)));
          }
        case ViewsTask(d) =>
          ExportViews(d);
          OnlyConfigBlobIsConfigName(projectId, d.datasetId, "", 0);
          var records := ViewsExport(d, projectId);
          if records.Some? {
            SaveKeepsConfig(before, ViewsBlob(d.datasetId), Json(List(records.value)));
          }
        case ExternalTablesTask(d) =>
          ExportExternalTables(d);
          OnlyConfigBlobIsConfigName(projectId, d.datasetId, "", 0);
          var records := ExternalTablesExport(d);
          if records.Some? {
            SaveKeepsConfig(before, ExternalTablesBlob(d.datasetId), Json(List(records.value)));
          }
        case TableTask(d, e) =>
          ExportTable(d, e);
          forall n | IsConfigName(n) ensures Lookup(store.blobs, n) == Lookup(before, n) {
            TableExportKeepsConfig(before, d.datasetId, e, n);
          }
      }
    }

    /** exporter.py:208-211: one export_table task per `TABLE`-typed table, in listing order. */
    method SubmitTables(d: Dataset, tables: seq<TableEntry>) returns (tasks: seq<Task>)
      ensures tasks == TableTasks(d, tables)
      ensures forall t :: t in tasks ==> t.TableTask? && t.table in tables && t.table.tableType == "TABLE"
    {
      tasks := [];
      var j := 0;
      while j < |tables|
        invariant 0 <= j <= |tables|
        invariant tasks == TableTasks(d, tables[..j])
      {
        assert tables[..j + 1][..j] == tables[..j];
        if tables[j].tableType == "TABLE" {
          tasks := tasks + [TableTask(d, tables[j])];
        }
        j := j + 1;
      }
      assert tables[..j] == tables;
      forall t | t in tasks ensures t.TableTask? && t.table in tables && t.table.tableType == "TABLE" {
        TableTasksOrigin(d, tables, t);
      }
    }

    /**
     * exporter.py:201-211: the tasks submitted for one dataset; when its
     * table listing fails, only the records tasks submitted before it.
     */
    method SubmitDataset(d: Dataset, components: seq<Component>) returns (tasks: seq<Task>, listed: bool)
      ensures listed <==> (Tables in components ==> d.tables.Some?)
      ensures listed ==> tasks == DatasetTasks(d, components)
      ensures !listed ==> tasks == RecordsTasks(d, components)
    {
      var routines := if Routines in components then [RoutinesTask(d)] else [];
      var views := if Views in components then [ViewsTask(d)] else [];
      var externals := if ExternalTables in components then [ExternalTablesTask(d)] else [];
      tasks := routines + views + externals;
      listed := true;
      if Tables in components {
        if d.tables.None? {
          listed := false;
        } else {
          var tableTasks := SubmitTables(d, d.tables.value);
          tasks := tasks + tableTasks;
        }
      }
    }

    /**
     * exporter.py:200-211: the tasks submitted per dataset in config order.
     * A failing table listing (exporter.py:208) ends the submission; the
     * tasks already submitted, that dataset's records tasks among them, are
     * kept, since the pool still runs them.
     */
    method SubmitTasks(components: seq<Component>) returns (tasks: seq<Task>, completed: bool)
      ensures completed <==> TablesListed(project.datasets, components)
      ensures completed ==> tasks == ExportTasks(project.datasets, components)
      ensures tasks == SubmittedTasks(project.datasets, components)
    {
      var datasets := project.datasets;
      tasks := [];
      var i := 0;
      while i < |datasets|
        invariant 0 <= i <= |datasets|
        invariant TablesListed(datasets[..i], components)
        invariant tasks == ExportTasks(datasets[..i], components)
      {
        var submitted, listed := SubmitDataset(datasets[i], components);
        if !listed {
          SubmittedUpToUnlisted(datasets, i, components);
          return tasks + submitted, false;
        }
        ExportTasksSnoc(datasets, i, components);
        tasks := tasks + submitted;
        i := i + 1;
      }
      assert datasets[..i] == datasets;
      completed := true;
    }

    /**
     * exporter.py:189-226. The configuration is saved first; the tasks are
     * submitted; scheduled queries run once, when the submission completed,
     * visiting `regions`; the submitted tasks are then drained in submission
     * order, each advancing the bar once, and none of them overwrites the
     * configuration.
     */
    method ExportProject(components: seq<Component>) returns (tasks: seq<Task>, completed: bool, ghost regions: seq<string>)
      requires store.Valid()
      modifies store, progress
      ensures store.Valid()
      ensures completed <==> TablesListed(project.datasets, components)
      ensures completed ==> tasks == ExportTasks(project.datasets, components)
      ensures tasks == SubmittedTasks(project.datasets, components)
      ensures progress.count == old(progress.count) + |tasks|
        + (if completed && ScheduledQueries in components then 1 else 0)
      ensures store.Read(ConfigBlob(projectId)) == Some(GetProjectConfig(projectId, DatasetIds(project.datasets)))
      ensures completed && ScheduledQueries in components && AllLocated(project.datasets) ==>
        Distinct(regions) && forall r :: r in regions <==> r in Locations(project.datasets)
      ensures completed && ScheduledQueries in components && !AllLocated(project.datasets) ==> regions == FallbackRegions
      ensures var saved := old(store.blobs)[ConfigBlob(projectId) := Json(GetProjectConfig(projectId, DatasetIds(project.datasets)))];
        store.blobs == RunTasks(
          if completed && ScheduledQueries in components
          then saved[ScheduledQueriesBlob := Json(List(ScheduledQueryRecords(project.transfers, projectId, regions)))]
          else saved,
          projectId, tasks)
    {
      var config := GetProjectConfig(projectId, DatasetIds(project.datasets));
      store.Save(ConfigBlob(projectId), config);
      ghost var saved := store.blobs;
      assert Lookup(saved, ConfigBlob(projectId)) == Some(config);
      tasks, completed := SubmitTasks(components);
      regions := FinishExport(tasks, completed, components);
    }

    /**
     * exporter.py:212-218: once the submission has got through every
     * dataset, the scheduled queries are exported; then the submitted tasks
     * are drained. Neither touches the project config blob.
     */
    method FinishExport(tasks: seq<Task>, completed: bool, components: seq<Component>) returns (ghost regions: seq<string>)
      requires store.Valid()
      modifies store, progress
      ensures store.Valid()
      ensures progress.count == old(progress.count) + |tasks|
        + (if completed && ScheduledQueries in components then 1 else 0)
      ensures store.Read(ConfigBlob(projectId)) == old(store.Read(ConfigBlob(projectId)))
      ensures completed && ScheduledQueries in components && AllLocated(project.datasets) ==>
        Distinct(regions) && forall r :: r in regions <==> r in Locations(project.datasets)
      ensures completed && ScheduledQueries in components && !AllLocated(project.datasets) ==> regions == FallbackRegions
      ensures store.blobs == RunTasks(
          if completed && ScheduledQueries in components
          then old(store.blobs)[ScheduledQueriesBlob := Json(List(ScheduledQueryRecords(project.transfers, projectId, regions)))]
          else old(store.blobs),
          projectId, tasks)
    {
      regions := [];
      if completed && ScheduledQueries in components {
        regions := ExportScheduledQueries();
        OnlyConfigBlobIsConfigName(projectId, "", "", 0);
        assert ScheduledQueriesBlob != ConfigBlob(projectId);
      }
      ghost var start := store.blobs;
      DrainTasks(tasks);
      TasksKeepConfig(start, projectId, tasks);
    }

    /** exporter.py:216-220: the submitted tasks run in submission order, each advancing the bar once. */
    method DrainTasks(tasks: seq<Task>)
      requires store.Valid()
      modifies store, progress
      ensures store.Valid()
      ensures progress.count == old(progress.count) + |tasks|
      ensures store.blobs == RunTasks(old(store.blobs), projectId, tasks)
    {
      var k := 0;
      while k < |tasks|
        invariant 0 <= k <= |tasks|
        invariant store.Valid()
        invariant progress.count == old(progress.count) + k
        invariant store.blobs == RunTasks(old(store.blobs), projectId, tasks[..k])
      {
        assert tasks[..k + 1][..k] == tasks[..k];
        RunTask(tasks[k]);
        k := k + 1;
      }
      assert tasks[..k] == tasks;
    }
  }

  /** A write under a name that is not a config name leaves every config blob as it was. */
  lemma SaveKeepsConfig(blobs: map<string, Blob>, name: string, b: Blob)
    requires !IsConfigName(name)
    ensures forall n :: IsConfigName(n) ==> Lookup(blobs[name := b], n) == Lookup(blobs, n)
  {
  }

  /** A table's export never touches a configuration blob. */
  lemma TableExportKeepsConfig(blobs: map<string, Blob>, datasetId: string, e: TableEntry, n: string)
    requires IsConfigName(n)
    ensures Lookup(TableExport(blobs, datasetId, e), n) == Lookup(blobs, n)
  {
    if e.fetched.Some? && e.shards.Some? {
      OnlyConfigBlobIsConfigName("", datasetId, e.tableId, 0);
      WithDataKeepsConfig(blobs, datasetId, e.tableId, e.shards.value, n);
    }
  }

  lemma {:induction false} WithDataKeepsConfig(blobs: map<string, Blob>, datasetId: string, tableId: string, k: nat, n: string)
    requires IsConfigName(n)
    ensures Lookup(WithData(blobs, datasetId, tableId, k), n) == Lookup(blobs, n)
  {
    if k > 0 {
      OnlyConfigBlobIsConfigName("", datasetId, tableId, k - 1);
      WithDataKeepsConfig(blobs, datasetId, tableId, k - 1, n);
    }
  }
}
