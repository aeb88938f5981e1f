# BigQuery project export/import, modelled in Dafny

The tool copies a BigQuery project through a Cloud Storage bucket. The exporter writes these blobs:
- a configuration blob listing the project's datasets;
- per dataset, JSON records of its routines, views and external tables;
- per table, Parquet data files and a schema file;
- one file of scheduled queries (data-transfer configurations).

The importer reads the bucket back and rebuilds those objects in another project. `main.py` counts the tasks so the progress bar knows its total.

This project models the deterministic layer under the cloud calls:
- **Text and path rules** (`text.dfy`, `paths.dfy`): the text rules are
  - qualifier stripping;
  - cross-project reference detection;
  - `str.split`.

  The path rules are
  - the bucket layout;
  - table-id discovery, which inverts that layout;
  - the config-name test.
- **Serialization records** (`values.dfy`, `records.dfy`): `serialize_message` over a datatype of Python values, and the four record builders of `utils.py`.
- **The bucket and its resolution** (`base.dfy`): a `Store` class holding blobs and a name-sorted listing, the `BigQueryBase.__init__` decision steps, and `get_project_config`.
- **The export run** (`warehouse.dfy`, `exporter.dfy`): the live project is an immutable snapshot in which every call that can fail carries its outcome. An `Exporter` class writes to the `Store` and advances a `ProgressBar` (`progress.dfy`).
- **The import run** (`importer.dfy`): a `Target` class records every successful create or load call in order. Which calls fail is fixed in advance. An `Importer` class reads the `Store`, drives the `Target` and advances the bar.
- **Export then import** (`migration.dfy`): every exported record, and every exported blob, reads back as the create calls that rebuild its objects.
- **The task count** (`catalog.dfy`): `count_tasks`, compared with the increments each pipeline makes.

Modelling choices:
- Thread-pool batches run as sequential loops, each finished before the next stage.
- A Python set's iteration order is an arbitrary choice (`:|`), returned as a ghost order. This covers table ids on import and regions on export.
- BigQuery names dataset ids uniquely within a project; `RunExport` requires this.

## Model

| member | source | states |
|---|---|---|
| Text.RemoveAllWithoutOccurrence | exporter.py:73 | `replace` leaves text in which the pattern never occurs unchanged |
| Text.StripWithoutQualifierIsIdentity | exporter.py:96 | a query that never mentions `{project_id}.` is exported unchanged |
| Text.RemoveAllSkipsPrefix | exporter.py:73 | text before the first possible start of an occurrence is kept verbatim |
| Text.RemoveAllLeading | exporter.py:73 | a leading occurrence is removed and the left-to-right scan resumes right after it |
| Text.RemoveAll | exporter.py:73 | `replace` never lengthens the text, and a text it does not shorten comes back unchanged |
| Text.StripQualifierShortens | exporter.py:96 | stripping `{project_id}.` from a view query, routine body or scheduled query never lengthens it, and a text it does not shorten is unchanged |
| Text.StripSelfQualifiedReference | exporter.py:96 | a backtick-quoted self-qualified reference loses exactly its project part |
| Text.StripSelfReferenceExample | exporter.py:96 | ``SELECT * FROM `proj1.ds1.t1` `` becomes ``SELECT * FROM `ds1.t1` `` |
| Text.StripIsNotIdempotent | exporter.py:169 | stripping twice can differ from stripping once (`aa..` in project `a`) |
| Text.StripRemovesEmbeddedProjectId | exporter.py:73 | the replacement is unanchored: a name ending in the project id also loses that suffix |
| Text.StripAltersDatasetEndingInProjectId | exporter.py:96 | in project `prod`, `` `prod.old_prod.t1` `` becomes `` `old_t1` `` |
| Text.IndexOf | importer.py:186 | the first occurrence of a character: in range, equal to it, absent before it |
| Text.Split | importer.py:186 | `str.split` gives at least one piece, none containing the separator, and two or more exactly when the separator occurs |
| Text.JoinSplit | importer.py:186 | joining the pieces of a split gives back the text |
| Text.SplitJoin | importer.py:186 | splitting a join of separator-free pieces gives back the pieces |
| Text.LastIndexOf | exporter.py:14 | the last occurrence of a character, or None exactly when it is absent |
| Text.QualifierOf | exporter.py:14 | the regex group of one backtick segment is a non-empty prefix of it |
| Text.ProjectsInQuery | exporter.py:14 | the captured project ids are non-empty and contain no backtick |
| Text.LogProjectsInSqlQuery | exporter.py:12-16 | a warning is logged exactly when the captured set is non-empty, and names that set |
| Text.NoBacktickNoProjects | exporter.py:14 | a query without a backtick logs nothing |
| Text.PlainPrefixIsSkipped | exporter.py:14 | plain text before the first backtick does not change what is detected |
| Text.QualifierOfReference | exporter.py:14 | the group of `project.dataset.table` with word-only dataset and table is `project` |
| Text.ProjectsAtBacktick | exporter.py:14 | findall at an opening backtick: this segment's capture, then the scan behind the closing backtick |
| Text.DetectsSegment | exporter.py:14 | a segment with capture `project` reports exactly `{project}` |
| Text.DetectsQualifiedReference | exporter.py:12-16 | a quoted `project.dataset.table` after plain text reports exactly its project |
| Values.SerializeMessage | utils.py:50-58 | objects give dicts of exactly their public attributes; lists and tuples give lists of the same length; dicts keep their key set; other values are unchanged |
| Values.SerializeIsPlain | utils.py:50-58 | the result is JSON-shaped: no object and no tuple remains anywhere inside |
| Values.SerializeEach | utils.py:54 | element `i` of the list is the serialization of element `i` |
| Values.SerializePlainIsIdentity | utils.py:50-58 | serialization leaves a JSON-shaped value exactly as it is |
| Values.SerializeIsIdempotent | utils.py:50-58 | serializing twice is serializing once |
| Values.SerializeObjectAttribute | utils.py:52 | each public attribute is serialized under its own name |
| Records.ArgumentRecords | utils.py:14-20 | present exactly when every argument has a data type (`to_api_repr` on a missing one raises); then one record per argument, in order, record `i` built from argument `i` |
| Records.ArgumentRecord | utils.py:15-19 | an argument record exists exactly when the argument has a data type, and then has exactly the keys `name`, `data_type` and `mode` |
| Records.SerializeRoutine | utils.py:8-24 | present exactly when every argument is typed; then exactly the eight routine keys, arguments in order, `created`/`modified` `None` exactly when absent |
| Records.SerializeView | utils.py:27-35 | exactly the six view keys; the schema list in order; timestamps `None` exactly when absent |
| Records.SerializeExternalTable | utils.py:38-46 | exactly the six external-table keys; the schema list in order; timestamps `None` exactly when absent |
| Records.TimeText | utils.py:21-22 | a timestamp field is `None` exactly when absent, else its ISO text |
| Records.RoutineArgumentInOrder | utils.py:14-20 | for a routine whose arguments are all typed, argument record `i` carries argument `i`'s name, data type and mode |
| Records.ViewRecordCopiesFields | utils.py:29-31 | `table_id`, `view_query` and `description` are copied unchanged |
| Records.RoutineRecordCopiesFields | utils.py:10-23 | `routine_id`, `type_`, `language`, `body` and `description` are copied unchanged |
| Records.ParamsQuery | utils.py:65 | params_query is the `query` parameter when there is one and `None` otherwise; an empty mapping has no `query`, so its emptiness test adds no case |
| Records.ScheduledQueryRecordFields | utils.py:60-77 | the fields the importer reads back hold the configuration's values; params keep the key set; params_query is the raw query |
| Records.SerializeScheduledQuery | utils.py:60-77 | a dict holding `params` and `params_query`, whose `params_query` is the configuration's `query` parameter or `None` |
| Records.StateName | utils.py:72 | the state is `None` exactly for the falsy code 0, else its name |
| Records.StateIsNameOrNone | utils.py:72 | the state is its name, or `None` for the falsy code 0 |
| Paths.Decimal | exporter.py:122 | a non-empty string of decimal digits |
| Paths.ShardName | exporter.py:122 | a shard name is at least twelve decimal digits and holds no `/` |
| Paths.DataUriCoversShard | exporter.py:122 | the load URI is a prefix, `*` and `.parquet`; every data file's `gs://` name is that prefix, a `/`-free shard name and `.parquet` |
| Paths.TableIdOf | importer.py:186 | `split('/')[1]` of a name holding `/` is a `/`-free piece |
| Paths.TableIds | importer.py:185-186 | the discovered table ids contain no `/` |
| Paths.DataBlobYieldsTable | exporter.py:122 | a data file of the export layout is listed under its dataset and yields its table id |
| Paths.SchemaBlobIsNotData | exporter.py:142 | a schema file never ends in `.parquet`, so it yields no table id |
| Paths.DataBlobOfOtherDataset | importer.py:185 | a data file of one dataset is not listed under another |
| Paths.TableIdsInvertLayout | importer.py:185-186 | on a listing of exported data files, discovery gives exactly the exported tables of the dataset |
| Paths.OnlyConfigBlobIsConfigName | importer.py:164 | of the names the exporter writes, only the configuration blob passes the `_config.json` test |
| Paths.JsonBlobsAreNotData | importer.py:186 | no JSON blob the exporter writes ends in `.parquet` |
| Paths.RecordsBlobsInjective | exporter.py:83-113 | a records blob's name gives back its dataset id |
| Paths.ExportNamesDiffer | exporter.py:83-178 | records blobs of different kinds, schema files and the scheduled-query blob never share a name; each records name gives back its dataset |
| Base.InsertName | base.py:43-45 | a write keeps the listing sorted and adds exactly the new name |
| Base.SortedUnique | base.py:43-45 | a sorted listing holds each name once |
| Base.Store.Save | base.py:43-45 | writes only key `blobName`; it then reads back the data; every other read is unchanged |
| Base.Store.PutData | exporter.py:134-139 | an extract job's data file is a new listed blob; nothing else changes |
| Base.BucketClient.constructor | base.py:10-33 | found: used with no creation; Forbidden: fatal with no creation; NotFound: one creation in the region; Conflict: fatal; no error means there is a bucket |
| Base.GetProjectConfig | base.py:36-41 | the record has exactly the keys `project_id` and `datasets` |
| Base.Texts | importer.py:173 | the texts of a list, present exactly when every item is a text |
| Base.TextsSnoc | importer.py:173 | one more text item appends its text |
| Base.TextList | base.py:40 | the stored list holds one item per dataset id |
| Base.TextsOfTextList | base.py:40 | the stored list of dataset ids reads back as those ids, in order |
| Base.ProjectConfigRoundTrip | base.py:36-41 | the config names the project and lists the dataset ids in listing order, with the same count |
| Progress.ProgressBar.Increment | importer.py:60-62 | `update(1)` advances the count by exactly one |
| Components.DefaultIsComplete | main.py:92 | the default list holds all five components |
| Components.ChosenComponents | main.py:92 | a given choice is used as it is; an empty one means all five |
| Components.PerDataset | main.py:38-43 | at most three per-dataset tasks, and none exactly when routines, views and external tables are all absent |
| Warehouse.DatasetIds | base.py:40 | the ids in listing order, one per dataset |
| Warehouse.OfType | exporter.py:93 | only tables of the given type are kept |
| Warehouse.OfTypeKeepsAll | exporter.py:111 | every listed table of the type is kept |
| Warehouse.OfTypeOfPrefix | exporter.py:210 | filtering keeps listing order: it distributes over a split of the listing |
| Exporting.LogProjectsInScheduledQueries | exporter.py:18-23 | nothing is logged without a `query` parameter; otherwise a warning exactly when its captured set is non-empty |
| Exporting.RoutineRecordsStep | exporter.py:71-81 | a failed fetch, a `None` body, or a kept routine with an untyped argument abandons the dataset; an empty body is skipped; otherwise the stripped routine's record comes first |
| Exporting.WithBody | exporter.py:78 | the kept routines were fetched with a non-empty body |
| Exporting.RoutineRecords | exporter.py:71-81 | never more records than routines; when records exist, every kept routine's arguments are typed |
| Exporting.RoutineRecordsSelect | exporter.py:67-88 | records exist exactly when every routine was fetched with a body and every kept routine's arguments are typed; they are then the non-empty-bodied routines, in listing order, with stripped bodies |
| Exporting.SerializeKeptAt | exporter.py:81 | one record per kept routine, record `k` being routine `k`'s, with its stripped body |
| Exporting.RoutinesExport | exporter.py:69-83 | the routines blob is saved exactly when the listing, every fetch and every kept routine's serializer succeed; never more records than routines |
| Exporting.EmptinessIsTestedBeforeStripping | exporter.py:78 | a body that is only the qualifier is exported, with an empty body |
| Exporting.FetchAll | exporter.py:93 | all fetched tables in order, or None exactly when one fetch fails |
| Exporting.ViewRecords | exporter.py:95-100 | present iff every view has a query (`view_query.replace` raises on None); then one record per view |
| Exporting.ExternalRecords | exporter.py:112 | present iff every table has a configuration (`to_api_repr` raises on None); then record `k` is table `k` serialized |
| Exporting.ViewsExport | exporter.py:90-106 | saved iff the listing succeeds and every `VIEW` was fetched and has a query; then one record per `VIEW`-typed table |
| Exporting.ExternalTablesExport | exporter.py:108-118 | saved iff the listing succeeds and every `EXTERNAL` table was fetched and has a configuration; then one record per such table |
| Exporting.ViewRecordIsStripped | exporter.py:96-100 | view record `k` carries view `k`'s id and its stripped query |
| Exporting.WithDataHolds | exporter.py:134-139 | every data file of the extract job is written under the table's path |
| Exporting.WithData | exporter.py:134-139 | the extract job only adds data files: no blob name disappears |
| Exporting.WithDataElsewhere | exporter.py:134-139 | the extract job changes no name that does not end in `.parquet` |
| Exporting.TableExport | exporter.py:120-149 | no blob name disappears; a failed fetch or job writes nothing; otherwise the schema file holds the table's schema |
| Exporting.ScheduledOf | exporter.py:162-165 | only transfers with data source `scheduled_query` are kept |
| Exporting.StrippedTransfer | exporter.py:169 | the stripped transfer still holds a textual query |
| Exporting.RegionRecordsPrefix | exporter.py:167-172 | a region contributes its queries up to the first without a textual query, in order |
| Exporting.RegionRecordsAreScheduledQueries | exporter.py:167-172 | every exported record is a scheduled query whose params_query has the qualifier stripped |
| Exporting.RegionRecords | exporter.py:167-172 | never more records than queries; record `k` is query `k`, which has a textual query, stripped and serialized |
| Exporting.RegionExport | exporter.py:156-176 | every record of a region's turn is a dict whose `params_query` is a text |
| Exporting.ScheduledQueryRecords | exporter.py:154-178 | every record saved to the scheduled-query blob is a dict whose `params_query` is a text |
| Exporting.ScheduledQueryRecordsAppend | exporter.py:156-176 | `all_queries` grows region by region: two runs of regions give the concatenation of their records |
| Exporting.FailingRegionIsSkipped | exporter.py:160-176 | a region whose listing raises adds no record, and the regions after it are still exported |
| Exporting.TableTasks | exporter.py:208-211 | one table task per `TABLE`-typed table |
| Exporting.TableTasksOrigin | exporter.py:208-211 | every table task is for this dataset and a `TABLE`-typed table of its listing |
| Exporting.ExportTasksLength | exporter.py:200-211 | one task per dataset per requested per-dataset component, plus one per `TABLE` table |
| Exporting.RecordsTasks | exporter.py:201-206 | one task per requested per-dataset component, each for this dataset, none a table task |
| Exporting.FirstUnlisted | exporter.py:207-208 | the first dataset whose needed table listing fails, or the end exactly when every listing succeeds; every dataset before it is listed |
| Exporting.SubmittedUpToUnlisted | exporter.py:200-208 | after a listed prefix, the first failing listing stops the submission, which then holds the prefix's tasks and that dataset's records tasks |
| Exporting.SubmittedTasksExtendListed | exporter.py:200-211 | the submitted tasks start with every task of the datasets before the first failing listing |
| Exporting.SubmittedTasksLength | exporter.py:200-208 | a stopped submission holds one task per requested per-dataset component for each dataset up to the failing one, plus the tables before it |
| Exporting.TaskEffect | exporter.py:67-149 | a task only adds or overwrites blobs: no name disappears |
| Exporting.RunTasks | exporter.py:216-220 | the drained tasks only add or overwrite blobs: no name disappears |
| Exporting.Exporter.ExportRoutines | exporter.py:67-88 | saves exactly the routine records when no call failed, else writes nothing; one increment |
| Exporting.Exporter.ExportViews | exporter.py:90-106 | saves exactly the view records when no call failed, else writes nothing; one increment |
| Exporting.Exporter.ExportExternalTables | exporter.py:108-118 | saves exactly the external-table records when no call failed, else writes nothing; one increment |
| Exporting.Exporter.ExportTable | exporter.py:120-149 | data files then schema when fetch and job succeed, else nothing; one increment |
| Exporting.Exporter.GetAllRegions | exporter.py:51-65 | the distinct dataset locations when every dataset reports one, else exactly the fallback list |
| Exporting.Exporter.ExportRegion | exporter.py:156-176 | a region's turn yields its records; a failing listing yields none |
| Exporting.Exporter.CollectRecords | exporter.py:156-176 | the records of the visited regions, concatenated in visiting order |
| Exporting.Exporter.ExportScheduledQueries | exporter.py:151-187 | visits the regions in order; always saves the concatenated records, even empty; one increment |
| Exporting.Exporter.RunTask | exporter.py:216-220 | the bucket afterwards is exactly the task's effect on it (its records blob, or its table's files); one increment; no configuration name changes |
| Exporting.Exporter.SubmitTables | exporter.py:208-211 | the table tasks, each a `TABLE`-typed table of the listing |
| Exporting.Exporter.SubmitDataset | exporter.py:201-211 | the tasks are the dataset's when its needed table listing succeeds; when the listing fails they are the records tasks already submitted before it |
| Exporting.Exporter.SubmitTasks | exporter.py:200-211 | submission completes exactly when every needed table listing succeeds, and then yields ExportTasks; otherwise it yields the tasks before the first failing listing plus that dataset's records tasks |
| Exporting.Exporter.ExportProject | exporter.py:189-226 | the configuration is saved first; submission completes exactly when every needed listing succeeds, and then yields the catalog's tasks; the final bucket is the submitted tasks, including those submitted before a failing listing, run in order over the configuration and the scheduled-query blob; the regions visited are the distinct locations or the fallback; one increment per task plus one for scheduled queries |
| Exporting.Exporter.FinishExport | exporter.py:212-220 | scheduled queries only after a complete submission, then every submitted task drained in order; the configuration read is unchanged; one increment per task plus one for scheduled queries |
| Exporting.Exporter.DrainTasks | exporter.py:216-220 | the bucket becomes the submitted tasks run in submission order; one increment per task |
| Exporting.TableExportKeepsConfig | exporter.py:142-143 | a table export never touches a configuration blob |
| Exporting.TaskEffectElsewhere | exporter.py:67-149 | a task leaves every name it does not write as it was (names other than its records blob, or its table's schema file and `.parquet` names) |
| Exporting.RunTasksElsewhere | exporter.py:216-220 | a name that no task may write is unchanged by the whole run |
| Exporting.TasksKeepScheduledQueries | exporter.py:213-220 | the tasks drained after `export_scheduled_queries` never overwrite its blob |
| Exporting.TasksKeepConfig | exporter.py:194-220 | the tasks never overwrite the configuration saved before them |
| Exporting.RecordsBlobWriter | exporter.py:83-113 | only a task of the same kind, for a dataset with the same id, may write a records blob |
| Exporting.SavedRecords | exporter.py:83-113 | a records export that succeeded leaves its records in the blob; one that failed leaves the blob as it was |
| Exporting.SoleWriter | exporter.py:216-220 | when a records task is the only possible writer of its blob, the blob ends as that task leaves it, or as it was when the task never ran |
| Exporting.ExportTaskOrigin | exporter.py:200-211 | every submitted task belongs to a listed dataset and a requested component |
| Exporting.DatasetTasksAreExported | exporter.py:200-211 | every task of a listed dataset is submitted |
| Exporting.OnlyRecordsWriter | exporter.py:83-113 | with distinct dataset ids, the only task of the datasets that may write a records task's blob is that task |
| Exporting.RecordsBlobAfterExport | exporter.py:200-220 | with distinct dataset ids, after the run a records blob is as its task left it when its component was requested, else unchanged |
| Exporting.ExportLeavesRecords | exporter.py:67-118 | with distinct dataset ids, each requested records blob of a dataset holds the records its task saved; a blob whose task saved nothing, or was not requested, is as it was |
| Importing.Target.Create | importer.py:56 | a create succeeds unless rejected, is then logged, and a created dataset exists |
| Importing.Field | importer.py:44 | `record[key]` exists exactly for a dict holding the key |
| Importing.DecodeArguments | importer.py:49-53 | arguments rebuilt in stored order, or None when one lacks a key |
| Importing.RoutineStep | importer.py:42-56 | a routine is created under the importing project's `{dataset}.{id}` and the importer's region, or the rest is abandoned |
| Importing.ExternalTableStep | importer.py:85-92 | an external table is created under the importing project's `{dataset}.{id}`, or the rest is abandoned |
| Importing.ViewStep | importer.py:67-75 | the rest is abandoned exactly when `table_id` is missing; any other failure skips one view |
| Importing.TransferStep | importer.py:129-138 | parameters are exactly `{"query": params_query}` and the parent is the importer's region |
| Importing.RoutineSteps | importer.py:42-56 | one step per routine record, in order, step `k` from record `k` |
| Importing.ViewSteps | importer.py:67-75 | one step per view record, in order, step `k` from record `k` |
| Importing.ExternalTableSteps | importer.py:85-92 | one step per external-table record, in order, step `k` from record `k` |
| Importing.TransferSteps | importer.py:129-138 | one step per scheduled-query record, in order, step `k` from record `k` |
| Importing.Plan | importer.py:42-56 | what was created came from a create step and was not rejected |
| Importing.PlanStep | importer.py:67-75 | one step: abandon, skip, create, or a rejected create that stops or skips |
| Importing.FirstFailureEndsRun | importer.py:40-59 | in routines, external tables and scheduled queries, nothing after the first failure is created |
| Importing.ViewFailuresAreSkipped | importer.py:67-75 | without an abandoning record, exactly the accepted views are created |
| Importing.PlanCreatesAll | importer.py:42-56 | when nothing fails, every object is created in order |
| Importing.RoutinesImport | importer.py:39-62 | only routines, none rejected |
| Importing.ExternalTablesImport | importer.py:82-98 | only external tables, none rejected |
| Importing.ViewsImport | importer.py:64-80 | only views, none rejected |
| Importing.ScheduledQueriesImport | importer.py:123-151 | only transfer configurations, all under the importer's region |
| Importing.TableEvent | importer.py:100-121 | a load of this table from its data URI |
| Importing.TableLoads | importer.py:184-193 | only loads of this dataset's discovered tables, none rejected |
| Importing.FirstConfigName | importer.py:161-169 | the first listed name ending in `_config.json`, or None exactly when there is none |
| Importing.Importer.RunSteps | importer.py:42-56 | the successful creates, in order, are what Plan says |
| Importing.Importer.ImportRoutines | importer.py:39-62 | logs exactly the routines import; one increment |
| Importing.Importer.ImportExternalTables | importer.py:82-98 | logs exactly the external-tables import; one increment |
| Importing.Importer.ImportViews | importer.py:64-80 | logs exactly the views import; one increment |
| Importing.Importer.ImportScheduledQueries | importer.py:123-151 | logs exactly the scheduled-queries import; one increment |
| Importing.Importer.ImportTable | importer.py:100-121 | one load when the schema reads and the job is accepted; one increment |
| Importing.Importer.ImportTables | importer.py:184-193 | each discovered table id loaded once, in the batch's order; one increment each |
| Importing.Importer.ImportDataset | importer.py:174-202 | a dataset is created only when missing; a probe error or failed creation changes nothing; then the stages in order |
| Importing.Importer.RunStages | importer.py:182-202 | tables (batch drained), external tables, views, routines, in that order |
| Importing.Importer.FindConfigBlob | importer.py:161-166 | the scan stops at the first config name |
| Importing.Importer.ImportDatasets | importer.py:173-202 | the loop goes through the longest prefix of stored ids that are texts and whose dataset succeeds, and ends with the error of the item it stopped at; its calls are exactly each imported dataset's ensure-dataset call followed by its stages, in order; each dataset's load order covers exactly its discovered table ids; those datasets then exist; no transfer and no re-created dataset; increments as counted |
| Importing.Importer.ImportProject | importer.py:153-207 | no config name gives `ConfigNotFound` and an unreadable config `ConfigUnreadable`, both touching nothing; otherwise the dataset loop as `ImportDatasets` states it, each dataset's load order covering its discovered table ids, and scheduled queries only after every dataset was imported; no existing dataset re-created; increments as counted |
| Importing.Importer.ImportStored | importer.py:173-205 | over the stored items: the dataset loop as `ImportDatasets` states it, then scheduled queries exactly when every item was imported |
| Importing.Importer.EnsureTargetDataset | importer.py:174-180 | succeeds exactly when the probe does not err and the dataset exists or its creation is accepted; a missing dataset is created once in the importer's region; a failure changes nothing |
| Importing.Importer.ReadConfig | importer.py:161-171 | the stored dataset list is returned exactly when one exists; otherwise the failure says whether no name matched `_config.json` or the matched blob did not read as a config |
| Importing.StoredDatasets | importer.py:161-171 | a stored dataset list exists only when a config name was found and its blob reads |
| Importing.ImportedCount | importer.py:173-180 | the loop never gets through more items than are stored |
| Importing.DatasetsEnd | importer.py:173-180 | no error exactly at the end of the items; otherwise `BadDatasetId` at that position exactly for a non-text item, and `DatasetFailed` naming the id |
| Importing.ImportedCountAt | importer.py:173-180 | at item `i` the loop stops on a non-text id or a failing dataset, else goes on with one more existing dataset |
| Importing.ImportedCountStops | importer.py:173-180 | the imported ids are texts, and the loop stops only at a non-text id or at a dataset whose probe errs or whose creation is rejected |
| Importing.DatasetEventsPart | importer.py:173-202 | the dataset loop's calls create no transfer and never re-create an existing dataset |
| Importing.DatasetEventsSnoc | importer.py:173-202 | one more dataset appends its ensure-dataset call and its stages, with every earlier dataset existing |
| Importing.DatasetEvents | importer.py:173-202 | every dataset the loop's calls create is one of the imported ids |
| Importing.DatasetStep | importer.py:173-202 | one more dataset's ensure call and stages extend the loop's calls to those of the longer id list |
| Importing.CoversSnoc | importer.py:184-193 | a dataset whose load order covers its table ids extends a covering run |
| Importing.CoversEach | importer.py:184-193 | in a covering run, every dataset's load order holds exactly its discovered table ids |
| Importing.CoversAt | importer.py:184-193 | in a covering run, dataset `k`'s load order holds exactly its discovered table ids |
| Importing.TakePending | importer.py:191 | loading a pending table id keeps the load order free of repeats and covering exactly the ids loaded |
| Importing.Stages | importer.py:184-202 | a dataset's stages make only table loads and external-table, view and routine creates: no dataset, no transfer |
| Importing.TableLoadsSnoc | importer.py:191 | one more table load appends its load |
| Migration.ArgumentsRoundTrip | importer.py:49-53 | argument records read back as the arguments, in order |
| Migration.RoutineRoundTrip | importer.py:43-55 | a routine record reads back as the routine, created in the importing project and region |
| Migration.RoutineMigrates | exporter.py:73 | an exported routine is created with its id and its source-stripped body |
| Migration.ViewRoundTrip | importer.py:69-72 | a view record reads back as the view with its query and description |
| Migration.ExternalTableRoundTrip | importer.py:86-92 | an external-table record reads back with schema, configuration and description |
| Migration.TransferRoundTrip | importer.py:130-138 | a scheduled-query record reads back under the importer's region; only the query parameter remains |
| Migration.TransferImportForgets | importer.py:131-138 | schedule options, e-mail preferences, state and owner do not reach the new configuration |
| Migration.TableRoundTrip | importer.py:106-113 | the load reads the exported schema from the URI the data was written under |
| Migration.ExportedTableIsDiscovered | importer.py:185-186 | a table with at least one data file is found by discovery |
| Migration.ViewsRoundTrip | importer.py:64-80 | an exported views blob creates every view in order, with stripped queries |
| Migration.ExternalTablesRoundTrip | importer.py:82-98 | an exported external-tables blob creates every external table in order |
| Migration.RoutinesRoundTrip | importer.py:39-62 | an exported routines blob creates the routines with non-empty fetched bodies, in order |
| Migration.TransfersRoundTrip | importer.py:123-151 | a scheduled-queries blob creates one configuration per record, in order |
| Migration.ExportedViewsAreImported | importer.py:64-80 | after a complete export of datasets with distinct ids, importing a dataset's views with none rejected creates every exported view, in order, with stripped queries |
| Migration.ExportedExternalTablesAreImported | importer.py:82-98 | after a complete export of datasets with distinct ids, importing a dataset's external tables with none rejected creates every exported one, in order |
| Migration.ExportedRoutinesAreImported | importer.py:39-62 | after a complete export of datasets with distinct ids, importing a dataset's routines with none rejected creates every routine with a non-empty fetched body, in order |
| Catalog.CountTables | main.py:44-52 | the table part of the count: the TABLE-typed tables of every listed dataset on export, None once a listing fails; the distinct parquet table ids on import |
| Catalog.CountTasks | main.py:31-56 | count_tasks computes TaskCount: ids per requested per-dataset component, tables by mode, one for scheduled queries, None when a listing raises |
| Catalog.TaskCount | main.py:31-56 | None exactly when exporting tables and some dataset's listing raises; otherwise at least one per dataset per requested per-dataset component, plus one for scheduled queries |
| Catalog.TablesOfListing | main.py:47 | a listing list_tables returns is that of a dataset with that id; an id no dataset has raises |
| Catalog.ExportTableCount | main.py:45-48 | the export table count exists exactly when every dataset's listing does |
| Catalog.ImportTableCount | main.py:49-52 | the import table count is at least each dataset's number of discovered table ids |
| Catalog.TablesOfAt | main.py:47 | with distinct ids, list_tables(id) is that dataset's listing |
| Catalog.ExportTableCountOf | main.py:45-48 | the export table count exists exactly when every listing does, and is then the `TABLE`-typed tables of all datasets |
| Catalog.ExportCountMatches | main.py:93 | the export count raises exactly when submission stops early; otherwise it equals the export's increments |
| Catalog.DatasetsIncrementsSplit | importer.py:184-202 | an import's dataset increments are per-dataset tasks plus table loads |
| Catalog.ImportCountMatches | main.py:93 | counted over the ids the import goes through, the count equals its increments |
| Catalog.NoComponentsNoTasks | main.py:31-56 | empty components give 0 |
| Catalog.CountSeesOnlyMembership | main.py:31-56 | the count depends only on which components are members |
| Catalog.ImportCountByLength | main.py:38-43 | without tables, dataset lists of different lengths get different counts |
| Catalog.ListDatasets | base.py:37 | the importing project's datasets, each once |
| Catalog.RunExport | main.py:91-98 | when the count raises nothing runs; otherwise the export ends with the bar exactly full |
| Catalog.RunImport | main.py:91-101 | as written: total over the live datasets, increments over the stored ones |
| Catalog.CountFromStoredConfig | importer.py:171-173 | the corrected count's ids are the stored configuration's |
| Catalog.RunImportCorrected | main.py:91-101 | counting over the stored ids leaves the bar exactly full after a normal import |
| Catalog.ImportCountFallsShort | main.py:91-93 | fresh target, stored `ds1`, views only: total 0 but one increment |
| Catalog.OneStoredDataset | importer.py:161-173 | a bucket holding only a one-dataset config lists that dataset |

## Left out

- The Google Cloud clients, extract and load jobs, and `.result()` polling. Their outcomes are inputs: fetch results, shard counts, rejected calls, and probe errors.
- Concurrency. Batches are sequential loops. The exporter's tasks run after submission and after scheduled queries, which matches a pool that completes.
- tqdm beyond its counter, the logging handler, argparse, `setup_auth`, and log messages. Detection is modelled only as "warn or not" and the warned set.
- Local mirroring (`download_all_project_objects`, `upload_all_project_objects`, `upload_before_import`, `download_after_export`): these are filesystem I/O.
- JSON encoding (`json.dumps(default=str)`), `isoformat`, and `to_api_repr`/`from_api_repr`. These values are opaque: a blob holds its decoded value. Two failures of these are modelled. `arg.data_type.to_api_repr()` raises on a routine argument without a data type, and the dataset's routines export is abandoned. `external_data_configuration.to_api_repr()` raises on an external table without a configuration, and the dataset's external-tables export is abandoned.
- Unicode `\w`: only ASCII letters, digits and `_` count as word characters.
- Store writes never fail, so the re-raise in `export_scheduled_queries` (exporter.py:183-185) is unreachable in the model.
- The `DataTransferServiceClient` construction is not modelled as able to fail.
- Identifiers that are not texts.
  - Python would format a non-text dataset id with `str()`.
  - The model ends the import with `BadDatasetId` instead.
  - A config whose `datasets` is not a list, and any non-list records blob, are treated as unreadable.
  - A records blob entry whose `routine_id` or `table_id` is not a text: Python would format it into the f-string and go on creating. The model treats the entry as malformed. For routines and external tables the rest of that stage is dropped; for views the one view is skipped.
- Export tasks take the listed `Dataset` value instead of re-listing by id.
- `count_tasks` builds its own `BigQueryBase` with the default region, and main builds the exporter and importer, each resolving the bucket. All of these are taken as already resolved to the same `Store`.
- Serializers are total functions of their inputs, so "never modifies its input" holds by construction and has no separate lemma.
- Catalog.RunExport: requires distinct dataset ids, which BigQuery guarantees within a project.
- Exporting.Exporter.ExportProject: export tasks run one after another in submission order, so their writes are stated as that fold; independence of the order is proved only for records blobs, under distinct dataset ids (Exporting.RecordsBlobAfterExport), and not for table files.
- Importing.Importer.ImportTables: the batch is drained before the next stage, but which of its loads ran in parallel is not modelled.

## Findings

| source | as written | input that shows it | evidently intended | confidence | as-written member | corrected member |
|---|---|---|---|---|---|---|
| main.py:91-93 | In import mode the bar's total counts the importing project's live datasets (`get_project_config` of the target). `import_project` walks the datasets of the stored configuration. | A fresh target project with no datasets, a bucket whose config lists `ds1`, and only `views` requested. The total is 0, but the import advances the bar once. | Count over the dataset ids of the stored configuration, so a normal import leaves the bar exactly full. | not executed | Catalog.ImportCountFallsShort | Catalog.RunImportCorrected |
