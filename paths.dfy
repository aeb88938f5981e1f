/**
 * The bucket layout the exporter writes and the importer reads back:
 * blob names for each kind of export, the config-blob test, and the
 * table-id discovery that turns the names under `{dataset}/` back into
 * table ids.
 */
module Paths {
  import opened Common
  import opened Text

  /** exporter.py:194, the project configuration blob. */
  function ConfigBlob(projectId: string): string { projectId + "_config.json" }

  /** exporter.py:83 and importer.py:41. */
  function RoutinesBlob(datasetId: string): string { datasetId + "_routines.json" }

  /** exporter.py:101 and importer.py:66. */
  function ViewsBlob(datasetId: string): string { datasetId + "_views.json" }

  /** exporter.py:113 and importer.py:84. */
  function ExternalTablesBlob(datasetId: string): string { datasetId + "_external_tables.json" }

  /** exporter.py:142 and importer.py:106. */
  function SchemaBlob(datasetId: string, tableId: string): string
  {
    datasetId + "/" + tableId + "_schema.json"
  }

  /** exporter.py:178 and importer.py:126. */
  const ScheduledQueriesBlob: string := "scheduled_queries.json"

  /** The wildcard URI of a table's data files (exporter.py:122, importer.py:110). */
  function DataUri(bucketName: string, datasetId: string, tableId: string): string
  {
    "gs://" + bucketName + "/" + datasetId + "/" + tableId + "/*.parquet"
  }

  /** Decimal digits of `n`, most significant first. */
  function Decimal(n: nat): (d: string)
    ensures |d| > 0 && forall i :: 0 <= i < |d| ==> '0' <= d[i] <= '9'
    decreases n
  {
    var last := ['0' + (n % 10) as char];
    if n < 10 then last else Decimal(n / 10) + last
  }

  /**
   * The name an extract job gives to data file number `k` when it expands
   * the `*` of the wildcard URI: the number, zero-padded to twelve digits.
   */
  function ShardName(k: nat): (name: string)
    ensures '/' !in name
    ensures |name| >= 12 && forall i :: 0 <= i < |name| ==> '0' <= name[i] <= '9'
  {
    var d := Decimal(k);
    if |d| < 12 then seq(12 - |d|, _ => '0') + d else d
  }

  /** The blob holding data file `k` of table `tableId` (the expansion of DataUri). */
  function DataBlob(datasetId: string, tableId: string, k: nat): string
  {
    datasetId + "/" + tableId + "/" + ShardName(k) + ".parquet"
  }

  /** importer.py:164, the test that selects the configuration blob. */
  predicate IsConfigName(name: string)
  {
    EndsWith(name, "_config.json")
  }

  /** `name.split('/')[1]`, for a name that holds at least one `/`. */
  function TableIdOf(name: string): (t: string)
    requires '/' in name
    ensures '/' !in t
  {
    Split(name, '/')[1]
  }

  /** A name under `{datasetId}/` that ends in `.parquet`: a data file of that dataset. */
  predicate IsDataOf(name: string, datasetId: string)
  {
    StartsWith(name, datasetId + "/") && EndsWith(name, ".parquet")
  }

  lemma SlashInDataName(name: string, datasetId: string)
    requires IsDataOf(name, datasetId)
    ensures '/' in name
  {
    assert name[|datasetId|] == (datasetId + "/")[|datasetId|];
  }

  /**
   * importer.py:185-186 and main.py:50-51: the set of second `/`-segments
   * of the names listed under `{datasetId}/` that end in `.parquet`.
   */
  function TableIds(listing: seq<string>, datasetId: string): (ids: set<string>)
    ensures forall t :: t in ids ==> '/' !in t
  {
    set n | n in listing && IsDataOf(n, datasetId) :: (SlashInDataName(n, datasetId); TableIdOf(n))
  }

  // ---------------------------------------------------------------------
  // The layout inverts
  // ---------------------------------------------------------------------

  /**
   * The load job's wildcard URI matches every data file the export writes:
   * the URI is a prefix, a `*` and the `.parquet` suffix, and the file's
   * full `gs://` name is that prefix, a shard name free of `/`, and the
   * same suffix.
   */
  lemma DataUriCoversShard(bucketName: string, datasetId: string, tableId: string, k: nat)
    ensures var uri, name := DataUri(bucketName, datasetId, tableId), "gs://" + bucketName + "/" + DataBlob(datasetId, tableId, k);
      var p := |uri| - 9;
      0 <= p && uri[p] == '*' && uri[p + 1..] == ".parquet" && p + 8 <= |name|
      && StartsWith(name, uri[..p]) && EndsWith(name, ".parquet") && '/' !in name[p..|name| - 8]
  {
    var prefix := "gs://" + bucketName + "/" + datasetId + "/" + tableId + "/";
    var shard := ShardName(k);
    var uri, name := DataUri(bucketName, datasetId, tableId), "gs://" + bucketName + "/" + DataBlob(datasetId, tableId, k);
    assert uri == prefix + "*.parquet";
    assert name == prefix + shard + ".parquet";
    assert name[..|prefix|] == prefix;
    assert name[|prefix|..|name| - 8] == shard;
  }

  /** A data file of the export layout is found under its dataset and yields its table id. */
  lemma DataBlobYieldsTable(datasetId: string, tableId: string, k: nat)
    requires '/' !in datasetId && '/' !in tableId
    ensures IsDataOf(DataBlob(datasetId, tableId, k), datasetId)
    ensures '/' in DataBlob(datasetId, tableId, k)
    ensures TableIdOf(DataBlob(datasetId, tableId, k)) == tableId
  {
    DataBlobIsData(datasetId, tableId, k);
    SlashInDataName(DataBlob(datasetId, tableId, k), datasetId);
    DataBlobSegments(datasetId, tableId, k);
  }

  lemma DataBlobIsData(datasetId: string, tableId: string, k: nat)
    ensures IsDataOf(DataBlob(datasetId, tableId, k), datasetId)
  {
    var head, shard := datasetId + "/", ShardName(k);
    AppendAssoc(head, tableId, "/");
    AppendAssoc(head, tableId + "/", shard);
    AppendAssoc(head, tableId + "/" + shard, ".parquet");
    StartsWithAppend(head, tableId + "/" + shard + ".parquet");
    EndsWithAppend(head + tableId + "/" + shard, ".parquet");
  }

  lemma DataBlobSegments(datasetId: string, tableId: string, k: nat)
    requires '/' !in datasetId && '/' !in tableId
    ensures Split(DataBlob(datasetId, tableId, k), '/') == [datasetId, tableId, ShardName(k) + ".parquet"]
  {
    var file := ShardName(k) + ".parquet";
    assert '/' !in file;
    JoinThree(datasetId, tableId, file, '/');
    assert DataBlob(datasetId, tableId, k) == datasetId + ['/'] + tableId + ['/'] + file;
    SplitJoin([datasetId, tableId, file], '/');
  }

  lemma JoinThree(a: string, b: string, c: string, sep: char)
    ensures Join([a, b, c], sep) == a + [sep] + b + [sep] + c
  {
    var parts := [a, b, c];
    assert parts[1..] == [b, c] && parts[1..][1..] == [c];
    assert Join([c], sep) == c;
    assert Join([b, c], sep) == b + [sep] + c;
  }

  /** A schema file of the export layout is never mistaken for a data file. */
  lemma SchemaBlobIsNotData(datasetId: string, tableId: string)
    ensures !EndsWith(SchemaBlob(datasetId, tableId), ".parquet")
  {
    var n := SchemaBlob(datasetId, tableId);
    assert n[|n| - 1] == 'n';
  }

  /** A data file of one dataset is not listed under another, when neither id holds a `/`. */
  lemma DataBlobOfOtherDataset(other: string, datasetId: string, tableId: string, k: nat)
    requires '/' !in other && '/' !in datasetId && other != datasetId
    ensures !StartsWith(DataBlob(other, tableId, k), datasetId + "/")
  {
    var n := DataBlob(other, tableId, k);
    var p := datasetId + "/";
    assert n[..|other| + 1] == other + "/";
    if |datasetId| < |other| {
      assert n[|datasetId|] == other[|datasetId|] != '/';
      assert p[|datasetId|] == '/';
    } else if |datasetId| > |other| {
      assert n[|other|] == '/';
      assert |p| <= |n| ==> p[|other|] == datasetId[|other|] != '/';
    } else {
      assert n[..|other|] == other;
      assert p[..|other|] == datasetId;
    }
  }

  /** The data files of a set of exported shards `(dataset, table, k)`. */
  function DataBlobs(shards: set<(string, string, nat)>): set<string>
  {
    set x | x in shards :: DataBlob(x.0, x.1, x.2)
  }

  /**
   * Table-id discovery inverts the export layout: when the `.parquet`
   * names of a listing are exactly the data files of some exported
   * shards, the ids found under a dataset are the tables exported from it.
   */
  lemma TableIdsInvertLayout(listing: seq<string>, datasetId: string, shards: set<(string, string, nat)>)
    requires '/' !in datasetId
    requires forall x :: x in shards ==> '/' !in x.0 && '/' !in x.1
    requires forall x :: x in shards ==> DataBlob(x.0, x.1, x.2) in listing
    requires forall n :: n in listing && EndsWith(n, ".parquet") ==> n in DataBlobs(shards)
    ensures TableIds(listing, datasetId) == set x | x in shards && x.0 == datasetId :: x.1
  {
    var found := TableIds(listing, datasetId);
    var exported := set x | x in shards && x.0 == datasetId :: x.1;
    forall t | t in found ensures t in exported {
      var n :| n in listing && IsDataOf(n, datasetId) && TableIdOf(n) == t;
      assert n in DataBlobs(shards);
      var x :| x in shards && n == DataBlob(x.0, x.1, x.2);
      if x.0 != datasetId {
        DataBlobOfOtherDataset(x.0, datasetId, x.1, x.2);
      }
      DataBlobYieldsTable(x.0, x.1, x.2);
    }
    forall t | t in exported ensures t in found {
      var x :| x in shards && x.0 == datasetId && x.1 == t;
      DataBlobYieldsTable(x.0, x.1, x.2);
      assert DataBlob(x.0, x.1, x.2) in listing;
    }
  }

  /**
   * Of the names the exporter writes, the configuration blob is the only
   * one the importer's suffix test selects.
   */
  lemma OnlyConfigBlobIsConfigName(projectId: string, datasetId: string, tableId: string, k: nat)
    ensures IsConfigName(ConfigBlob(projectId))
    ensures !IsConfigName(RoutinesBlob(datasetId))
    ensures !IsConfigName(ViewsBlob(datasetId))
    ensures !IsConfigName(ExternalTablesBlob(datasetId))
    ensures !IsConfigName(SchemaBlob(datasetId, tableId))
    ensures !IsConfigName(ScheduledQueriesBlob)
    ensures !IsConfigName(DataBlob(datasetId, tableId, k))
  {
    var r, v, e, s := RoutinesBlob(datasetId), ViewsBlob(datasetId), ExternalTablesBlob(datasetId), SchemaBlob(datasetId, tableId);
    assert r[|r| - 6] == 's' && v[|v| - 6] == 's' && e[|e| - 6] == 's' && s[|s| - 6] == 'a';
    var d := DataBlob(datasetId, tableId, k);
    assert d[|d| - 1] == 't';
    assert ScheduledQueriesBlob[|ScheduledQueriesBlob| - 6] == 's';
  }

  /** No JSON blob the exporter writes ends in `.parquet`. */
  lemma JsonBlobsAreNotData(projectId: string, datasetId: string, tableId: string)
    ensures !EndsWith(ConfigBlob(projectId), ".parquet")
    ensures !EndsWith(RoutinesBlob(datasetId), ".parquet")
    ensures !EndsWith(ViewsBlob(datasetId), ".parquet")
    ensures !EndsWith(ExternalTablesBlob(datasetId), ".parquet")
    ensures !EndsWith(SchemaBlob(datasetId, tableId), ".parquet")
    ensures !EndsWith(ScheduledQueriesBlob, ".parquet")
  {
    var c, r, v, e := ConfigBlob(projectId), RoutinesBlob(datasetId), ViewsBlob(datasetId), ExternalTablesBlob(datasetId);
    assert c[|c| - 1] == 'n' && r[|r| - 1] == 'n' && v[|v| - 1] == 'n' && e[|e| - 1] == 'n';
    SchemaBlobIsNotData(datasetId, tableId);
    assert ScheduledQueriesBlob[|ScheduledQueriesBlob| - 1] == 'n';
  }

  /** The characters seven and eight places from the end tell the exporter's blob kinds apart. */
  lemma ExportNameEnds(d: string, tableId: string)
    ensures var r := RoutinesBlob(d); r[|r| - 8] == 'n' && r[|r| - 7] == 'e'
    ensures var v := ViewsBlob(d); v[|v| - 7] == 'w'
    ensures var e := ExternalTablesBlob(d); e[|e| - 8] == 'l' && e[|e| - 7] == 'e'
    ensures var sc := SchemaBlob(d, tableId); sc[|sc| - 8] == 'e' && sc[|sc| - 7] == 'm'
  {
    var sc := SchemaBlob(d, tableId);
    assert sc == (d + "/" + tableId) + "_schema.json";
  }

  /** A records blob's name gives back its dataset. */
  lemma RecordsBlobsInjective(a: string, b: string)
    ensures RoutinesBlob(a) == RoutinesBlob(b) ==> a == b
    ensures ViewsBlob(a) == ViewsBlob(b) ==> a == b
    ensures ExternalTablesBlob(a) == ExternalTablesBlob(b) ==> a == b
  {
    var ra, va, ea := RoutinesBlob(a), ViewsBlob(a), ExternalTablesBlob(a);
    var rb, vb, eb := RoutinesBlob(b), ViewsBlob(b), ExternalTablesBlob(b);
    if ra == rb {
      assert a == ra[..|a|] && b == rb[..|b|];
    }
    if va == vb {
      assert a == va[..|a|] && b == vb[..|b|];
    }
    if ea == eb {
      assert a == ea[..|a|] && b == eb[..|b|];
    }
  }

  /**
   * The names the exporter writes never clash across kinds: a routines,
   * views or external-tables blob, a schema file and the scheduled-query
   * blob all differ, and a records blob's name gives back its dataset.
   */
  lemma ExportNamesDiffer(a: string, b: string, datasetId: string, tableId: string)
    ensures RoutinesBlob(a) != ViewsBlob(b) && RoutinesBlob(a) != ExternalTablesBlob(b)
      && ViewsBlob(a) != ExternalTablesBlob(b)
    ensures SchemaBlob(datasetId, tableId) != RoutinesBlob(b) && SchemaBlob(datasetId, tableId) != ViewsBlob(b)
      && SchemaBlob(datasetId, tableId) != ExternalTablesBlob(b)
    ensures ScheduledQueriesBlob != RoutinesBlob(b) && ScheduledQueriesBlob != ViewsBlob(b)
      && ScheduledQueriesBlob != ExternalTablesBlob(b) && ScheduledQueriesBlob != SchemaBlob(datasetId, tableId)
    ensures RoutinesBlob(a) == RoutinesBlob(b) ==> a == b
    ensures ViewsBlob(a) == ViewsBlob(b) ==> a == b
    ensures ExternalTablesBlob(a) == ExternalTablesBlob(b) ==> a == b
  {
    ExportNameEnds(a, tableId);
    ExportNameEnds(b, tableId);
    ExportNameEnds(datasetId, tableId);
    var q := ScheduledQueriesBlob;
    assert q[|q| - 8] == 'i' && q[|q| - 7] == 'e';
    RecordsBlobsInjective(a, b);
  }
}
