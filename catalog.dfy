/**
 * main.py: `count_tasks`, the progress bar's total, and the two runs
 * main() starts with it. In export mode the total matches the increments
 * of export_project; in import mode it is computed from the importing
 * project's own datasets, while import_project works through the datasets
 * the stored configuration lists, so the two part ways as soon as those
 * differ (see CountFromStoredConfig for the corrected count).
 */
module Catalog {
  import opened Common
  import opened Values
  import opened Paths
  import opened Base
  import opened Progress
  import opened Components
  import opened Warehouse
  import opened Exporting
  import opened Importing

  /** main.py:60, the run's mode. */
  datatype Operation = Export | Import

  // ---------------------------------------------------------------------
  // main.py:31-56, count_tasks
  // ---------------------------------------------------------------------

  /** `bq_client.list_tables(dataset_id)`: the listing of the dataset with that id; None when it raises. */
  function TablesOf(live: seq<Dataset>, datasetId: string): Option<seq<TableEntry>>
  {
    if |live| == 0 then None
    else if live[0].datasetId == datasetId then live[0].tables
    else TablesOf(live[1..], datasetId)
  }

  /**
   * A listing list_tables returns is the listing of a dataset with that
   * id, and listing an id no dataset has raises.
   */
  lemma {:induction false} TablesOfListing(live: seq<Dataset>, datasetId: string)
    ensures TablesOf(live, datasetId).Some? ==>
      exists i :: 0 <= i < |live| && live[i].datasetId == datasetId && live[i].tables == TablesOf(live, datasetId)
    ensures (forall i :: 0 <= i < |live| ==> live[i].datasetId != datasetId) ==> TablesOf(live, datasetId).None?
  {
    if |live| > 0 && live[0].datasetId != datasetId {
      TablesOfListing(live[1..], datasetId);
      assert forall i :: 0 <= i < |live| - 1 ==> live[1..][i] == live[i + 1];
    }
  }

  /** main.py:45-48: the `TABLE`-typed tables of the datasets, summed; None when a listing raises. */
  function ExportTableCount(live: seq<Dataset>, datasetIds: seq<string>): (r: Option<nat>)
    ensures r.Some? <==> forall k :: 0 <= k < |datasetIds| ==> TablesOf(live, datasetIds[k]).Some?
  {
    if |datasetIds| == 0 then Some(0)
    else
      var before := ExportTableCount(live, datasetIds[..|datasetIds| - 1]);
      assert forall k :: 0 <= k < |datasetIds| - 1 ==> datasetIds[..|datasetIds| - 1][k] == datasetIds[k];
      var tables := TablesOf(live, datasetIds[|datasetIds| - 1]);
      if before.None? || tables.None? then None
      else Some(before.value + |OfType(tables.value, "TABLE")|)
  }

  /** main.py:49-52: the distinct table ids found under each dataset's prefix, summed. */
  function ImportTableCount(listing: seq<string>, datasetIds: seq<string>): (r: nat)
    ensures forall k :: 0 <= k < |datasetIds| ==> |TableIds(listing, datasetIds[k])| <= r
  {
    if |datasetIds| == 0 then 0
    else
      var init := datasetIds[..|datasetIds| - 1];
      assert forall k :: 0 <= k < |init| ==> init[k] == datasetIds[k];
      ImportTableCount(listing, init) + |TableIds(listing, datasetIds[|datasetIds| - 1])|
  }

  /**
   * What count_tasks returns for the configuration's dataset ids, or None
   * when it raises: the ids once per requested per-dataset component, the
   * tables as the mode finds them, and one for scheduled queries.
   */
  function TaskCount(operation: Operation, datasetIds: seq<string>, live: seq<Dataset>, listing: seq<string>,
                     components: seq<Component>): (r: Option<nat>)
    ensures r.None? <==> (operation == Export && Tables in components
                          && exists k :: 0 <= k < |datasetIds| && TablesOf(live, datasetIds[k]).None?)
    ensures r.Some? ==> r.value >= PerDataset(components) * |datasetIds| + (if ScheduledQueries in components then 1 else 0)
  {
    PerDatasetTimes(components, |datasetIds|);
    var perDataset := (if Routines in components then |datasetIds| else 0)
      + (if Views in components then |datasetIds| else 0)
      + (if ExternalTables in components then |datasetIds| else 0);
    var tables :=
      if Tables !in components then Some(0)
      else if operation == Export then ExportTableCount(live, datasetIds)
      else Some(ImportTableCount(listing, datasetIds));
    if tables.None? then None else Some(perDataset + tables.value + (if ScheduledQueries in components then 1 else 0))
  }

  /**
   * main.py:31-56. `live` is the project whose tables list_tables sees,
   * `listing` the bucket's blob names; None stands for the exception a
   * failing table listing raises.
   */
  method CountTasks(operation: Operation, datasetIds: seq<string>, live: seq<Dataset>, listing: seq<string>,
                    components: seq<Component>) returns (total: Option<nat>)
    ensures total == TaskCount(operation, datasetIds, live, listing, components)
  {
    var count: nat := 0;
    if Routines in components {
      count := count + |datasetIds|;
    }
    if Views in components {
      count := count + |datasetIds|;
    }
    if ExternalTables in components {
      count := count + |datasetIds|;
    }
    if Tables in components {
      var tables := CountTables(operation, datasetIds, live, listing);
      if tables.None? {
        return None;
      }
      count := count + tables.value;
    }
    if ScheduledQueries in components {
      count := count + 1;
    }
    total := Some(count);
  }

  /** main.py:44-52: the loop over the dataset ids that counts their tables, by mode. */
  method CountTables(operation: Operation, datasetIds: seq<string>, live: seq<Dataset>, listing: seq<string>)
    returns (tables: Option<nat>)
    ensures tables == if operation == Export then ExportTableCount(live, datasetIds)
      else Some(ImportTableCount(listing, datasetIds))
  {
    var count: nat := 0;
    var i := 0;
    while i < |datasetIds|
      invariant 0 <= i <= |datasetIds|
      invariant operation == Export ==> ExportTableCount(live, datasetIds[..i]) == Some(count)
      invariant operation == Import ==> count == ImportTableCount(listing, datasetIds[..i])
    {
      if operation == Export {
        var listed := TablesOf(live, datasetIds[i]);
        if listed.None? {
          return None;
        }
        ExportTableCountSnoc(live, datasetIds, i);
        count := count + |OfType(listed.value, "TABLE")|;
      } else {
        ImportTableCountSnoc(listing, datasetIds, i);
        count := count + |TableIds(listing, datasetIds[i])|;
      }
      i := i + 1;
    }
    assert datasetIds[..i] == datasetIds;
    tables := Some(count);
  }

  lemma ExportTableCountSnoc(live: seq<Dataset>, datasetIds: seq<string>, i: nat)
    requires i < |datasetIds|
    requires ExportTableCount(live, datasetIds[..i]).Some? && TablesOf(live, datasetIds[i]).Some?
    ensures ExportTableCount(live, datasetIds[..i + 1])
      == Some(ExportTableCount(live, datasetIds[..i]).value + |OfType(TablesOf(live, datasetIds[i]).value, "TABLE")|)
  {
    assert datasetIds[..i + 1][..i] == datasetIds[..i];
  }

  lemma ImportTableCountSnoc(listing: seq<string>, datasetIds: seq<string>, i: nat)
    requires i < |datasetIds|
    ensures ImportTableCount(listing, datasetIds[..i + 1])
      == ImportTableCount(listing, datasetIds[..i]) + |TableIds(listing, datasetIds[i])|
  {
    assert datasetIds[..i + 1][..i] == datasetIds[..i];
  }

  // ---------------------------------------------------------------------
  // The count against the pipelines
  // ---------------------------------------------------------------------

  /** With distinct dataset ids, list_tables(id) is the listing of the dataset with that id. */
  lemma {:induction false} TablesOfAt(live: seq<Dataset>, k: nat)
    requires Distinct(DatasetIds(live)) && k < |live|
    ensures TablesOf(live, live[k].datasetId) == live[k].tables
  {
    if k > 0 {
      assert DatasetIds(live)[0] != DatasetIds(live)[k];
      assert Distinct(DatasetIds(live[1..])) by {
        assert forall i :: 0 <= i < |live| - 1 ==> DatasetIds(live[1..])[i] == DatasetIds(live)[i + 1];
      }
      TablesOfAt(live[1..], k - 1);
    }
  }

  /**
   * When list_tables(ids[k]) is the listing of datasets[k] for every k,
   * the export table count exists exactly when every listing does, and is
   * then the number of `TABLE`-typed tables over all of them.
   */
  lemma {:induction false} ExportTableCountOf(live: seq<Dataset>, ids: seq<string>, datasets: seq<Dataset>)
    requires |ids| == |datasets|
    requires forall k :: 0 <= k < |ids| ==> TablesOf(live, ids[k]) == datasets[k].tables
    ensures ExportTableCount(live, ids).Some? <==> forall k :: 0 <= k < |datasets| ==> datasets[k].tables.Some?
    ensures ExportTableCount(live, ids).Some? ==> ExportTableCount(live, ids).value == TableTotal(datasets)
  {
    if |ids| > 0 {
      var m := |ids| - 1;
      ExportTableCountOf(live, ids[..m], datasets[..m]);
    }
  }

  /** The three per-dataset components, each once per dataset. */
  lemma PerDatasetTimes(components: seq<Component>, n: nat)
    ensures PerDataset(components) * n
      == (if Routines in components then n else 0) + (if Views in components then n else 0)
        + (if ExternalTables in components then n else 0)
  {
  }

  /**
   * main.py:93 with exporter.py:200-214: on the project's own dataset
   * listing, the export count raises exactly when export_project's
   * submission stops early, and otherwise it is the number of tasks
   * submitted plus one for scheduled queries: the increments
   * export_project makes.
   */
  lemma ExportCountMatches(live: seq<Dataset>, listing: seq<string>, components: seq<Component>)
    requires Distinct(DatasetIds(live))
    ensures TaskCount(Export, DatasetIds(live), live, listing, components).Some? <==> TablesListed(live, components)
    ensures TablesListed(live, components) ==>
      TaskCount(Export, DatasetIds(live), live, listing, components).value
        == |ExportTasks(live, components)| + (if ScheduledQueries in components then 1 else 0)
  {
    forall k | 0 <= k < |live|
      ensures TablesOf(live, DatasetIds(live)[k]) == live[k].tables
    {
      TablesOfAt(live, k);
    }
    ExportTableCountOf(live, DatasetIds(live), live);
    PerDatasetTimes(components, |live|);
    if TablesListed(live, components) {
      ExportTasksLength(live, components);
    }
  }

  /** An import's dataset increments are its per-dataset tasks plus its table loads. */
  lemma {:induction false} DatasetsIncrementsSplit(listing: seq<string>, datasetIds: seq<string>, components: seq<Component>)
    ensures DatasetsIncrements(listing, datasetIds, components)
      == PerDataset(components) * |datasetIds| + (if Tables in components then ImportTableCount(listing, datasetIds) else 0)
  {
    if |datasetIds| > 0 {
      var init := datasetIds[..|datasetIds| - 1];
      DatasetsIncrementsSplit(listing, init, components);
      MulSucc(PerDataset(components), |init|);
    }
  }

  /**
   * main.py:93 with importer.py:173-205: counted over the dataset ids that
   * import_project goes through, the import count is the increments it
   * makes on a normal end.
   */
  lemma ImportCountMatches(datasetIds: seq<string>, live: seq<Dataset>, listing: seq<string>, components: seq<Component>)
    ensures TaskCount(Import, datasetIds, live, listing, components) == Some(ImportIncrements(listing, datasetIds, components))
  {
    DatasetsIncrementsSplit(listing, datasetIds, components);
    PerDatasetTimes(components, |datasetIds|);
  }

  /** No components, no tasks. */
  lemma NoComponentsNoTasks(operation: Operation, datasetIds: seq<string>, live: seq<Dataset>, listing: seq<string>)
    ensures TaskCount(operation, datasetIds, live, listing, []) == Some(0)
  {
  }

  /** The count sees only which components are requested, not their order or repetition. */
  lemma CountSeesOnlyMembership(operation: Operation, datasetIds: seq<string>, live: seq<Dataset>, listing: seq<string>,
                                c1: seq<Component>, c2: seq<Component>)
    requires forall c :: c in c1 <==> c in c2
    ensures TaskCount(operation, datasetIds, live, listing, c1) == TaskCount(operation, datasetIds, live, listing, c2)
  {
  }

  /**
   * Without the tables component the import count is fixed by the number
   * of dataset ids alone, so two dataset lists of different lengths are
   * counted differently whenever a per-dataset component is requested.
   */
  lemma ImportCountByLength(listing: seq<string>, a: seq<string>, b: seq<string>, components: seq<Component>)
    requires Tables !in components && PerDataset(components) > 0 && |a| != |b|
    ensures ImportIncrements(listing, a, components) != ImportIncrements(listing, b, components)
  {
    DatasetsIncrementsSplit(listing, a, components);
    DatasetsIncrementsSplit(listing, b, components);
    if |a| < |b| {
      MulLess(PerDataset(components), |a|, |b|);
    } else {
      MulLess(PerDataset(components), |b|, |a|);
    }
  }

  lemma MulLess(p: nat, m: nat, n: nat)
    requires p > 0 && m < n
    ensures p * m < p * n
  {
  }

  // ---------------------------------------------------------------------
  // main.py:91-101, the runs
  // ---------------------------------------------------------------------

  /** `list_datasets()` on the importing project: its datasets, each once, in some order. */
  method ListDatasets(target: Target) returns (ids: seq<string>)
    ensures Distinct(ids) && Elements(ids) == target.datasets
  {
    var pending := target.datasets;
    ids := [];
    while pending != {}
      invariant pending <= target.datasets
      invariant Distinct(ids)
      invariant forall d :: d in ids <==> d in target.datasets && d !in pending
      decreases |pending|
    {
      var d :| d in pending;
      ids := ids + [d];
      pending := pending - {d};
    }
    assert Elements(ids) == target.datasets;
  }

  /**
   * main.py:91-98 in export mode: the bar's total is counted on the
   * project's own listing; when the count raises nothing runs, and
   * otherwise the export ends with the bar exactly full.
   */
  method RunExport(projectId: string, bucketName: string, project: Project, store: Store, components: seq<Component>)
    returns (total: Option<nat>, bar: ProgressBar?)
    requires Distinct(DatasetIds(project.datasets)) && store.Valid()
    modifies store
    ensures total.Some? <==> TablesListed(project.datasets, components)
    ensures total.None? ==> bar == null && store.blobs == old(store.blobs)
    ensures total.Some? ==> bar != null && bar.total == total.value && bar.count == bar.total
  {
    var config := GetProjectConfig(projectId, DatasetIds(project.datasets));
    ProjectConfigRoundTrip(projectId, DatasetIds(project.datasets));
    var datasetIds := ConfigDatasetIds(config).value;
    total := CountTasks(Export, datasetIds, project.datasets, store.names, components);
    ExportCountMatches(project.datasets, store.names, components);
    if total.None? {
      return total, null;
    }
    bar := new ProgressBar(total.value);
    var exporter := new Exporter(projectId, bucketName, project, store, bar);
    var tasks, completed, regions := exporter.ExportProject(components);
  }

  /**
   * main.py:91-101 in import mode, as written: the total is counted over
   * the importing project's own datasets (`liveIds`), the increments over
   * the stored configuration's.
   */
  method RunImport(projectId: string, bucketName: string, region: string, store: Store, target: Target,
                   components: seq<Component>)
    returns (liveIds: seq<string>, outcome: ImportOutcome, bar: ProgressBar)
    modifies target
    ensures Distinct(liveIds) && Elements(liveIds) == old(target.datasets)
    ensures bar.total == ImportIncrements(store.names, liveIds, components)
    ensures outcome.Imported? ==> (StoredDatasetIds(store.names, store.blobs).Some? && bar.count
      == ImportIncrements(store.names, StoredDatasetIds(store.names, store.blobs).value, components))
  {
    liveIds := ListDatasets(target);
    var total := CountTasks(Import, liveIds, [], store.names, components);
    ImportCountMatches(liveIds, [], store.names, components);
    bar := new ProgressBar(total.value);
    var importer := new Importer(projectId, bucketName, region, store, target, bar);
    ghost var part: seq<Event>, ids: seq<string>, orders: seq<seq<string>>;
    outcome, part, ids, orders := importer.ImportProject(components);
  }

  /** The dataset ids the corrected count goes through: the stored configuration's, or none when it cannot be read. */
  function CountFromStoredConfig(names: seq<string>, blobs: map<string, Blob>): (ids: seq<string>)
    ensures StoredDatasetIds(names, blobs).Some? ==> ids == StoredDatasetIds(names, blobs).value
  {
    var stored := StoredDatasetIds(names, blobs);
    if stored.Some? then stored.value else []
  }

  /**
   * main.py:91-101 in import mode, corrected: the total is counted over
   * the dataset ids of the stored configuration, and an import that ends
   * normally leaves the bar exactly full.
   */
  method RunImportCorrected(projectId: string, bucketName: string, region: string, store: Store, target: Target,
                            components: seq<Component>)
    returns (outcome: ImportOutcome, bar: ProgressBar)
    modifies target
    ensures outcome.Imported? ==> bar.count == bar.total
  {
    var datasetIds := CountFromStoredConfig(store.names, store.blobs);
    var total := CountTasks(Import, datasetIds, [], store.names, components);
    ImportCountMatches(datasetIds, [], store.names, components);
    bar := new ProgressBar(total.value);
    var importer := new Importer(projectId, bucketName, region, store, target, bar);
    ghost var part: seq<Event>, ids: seq<string>, orders: seq<seq<string>>;
    outcome, part, ids, orders := importer.ImportProject(components);
  }

  /**
   * The as-written count on a fresh target: project "p" has no datasets
   * yet, the bucket holds only the configuration listing `ds1`, and only
   * views are requested. The bar's total is 0, yet a normal import
   * advances it once (import_views on `ds1`).
   */
  lemma ImportCountFallsShort()
    ensures StoredDatasetIds([ConfigBlob("p")], map[ConfigBlob("p") := Json(GetProjectConfig("p", ["ds1"]))])
      == Some(["ds1"])
    ensures TaskCount(Import, [], [], [ConfigBlob("p")], [Views]) == Some(0)
    ensures ImportIncrements([ConfigBlob("p")], ["ds1"], [Views]) == 1
  {
    OneStoredDataset("p", "ds1");
    var ids := ["ds1"];
    assert ids[..0] == [];
    assert DatasetsIncrements([ConfigBlob("p")], ids, [Views])
      == DatasetsIncrements([ConfigBlob("p")], [], [Views]) + DatasetIncrements([ConfigBlob("p")], "ds1", [Views]);
  }

  /** A bucket holding only the configuration of a project with one dataset lists that dataset. */
  lemma OneStoredDataset(projectId: string, datasetId: string)
    ensures StoredDatasetIds([ConfigBlob(projectId)], map[ConfigBlob(projectId) := Json(GetProjectConfig(projectId, [datasetId]))])
      == Some([datasetId])
  {
    var names := [ConfigBlob(projectId)];
    OnlyConfigBlobIsConfigName(projectId, "", "", 0);
    assert FirstConfigName(names) == Some(ConfigBlob(projectId)) by {
      assert names[0] == ConfigBlob(projectId);
    }
    ProjectConfigRoundTrip(projectId, [datasetId]);
  }
}
