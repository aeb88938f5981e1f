/**
 * A snapshot of the live BigQuery project the exporter reads. Every call
 * that can fail carries its outcome: `None` for a listing or fetch that
 * raises, `Some` for its result.
 */
module Warehouse {
  import opened Common
  import opened Records

  /** What `get_routine` gives: an error, or the routine's body (possibly `None`). */
  datatype RoutineFetch = FetchFailed | Fetched(body: Option<string>)

  /** A routine as `list_routines` lists it, with the outcome of fetching it in full. */
  datatype RoutineEntry = RoutineEntry(listed: Routine, fetch: RoutineFetch)

  /**
   * A table as `list_tables` lists it: its id, its type (`TABLE`, `VIEW`,
   * `EXTERNAL`, ...), what `get_table` returns for it, and the number of
   * data files an extract job writes for it (`None`: the job fails).
   */
  datatype TableEntry = TableEntry(tableId: string, tableType: string, fetched: Option<Table>, shards: Option<nat>)

  /**
   * A dataset: its id; its location as `get_dataset` reports it (`None`:
   * the call fails or gives no location); its tables and its routines as
   * the listings give them.
   */
  datatype Dataset = Dataset(
    datasetId: string,
    location: Option<string>,
    tables: Option<seq<TableEntry>>,
    routines: Option<seq<RoutineEntry>>)

  /**
   * The project: its datasets in listing order, and the transfer
   * configurations each location lists (a location absent from the map
   * fails to list).
   */
  datatype Project = Project(datasets: seq<Dataset>, transfers: map<string, seq<Transfer>>)

  /** The dataset ids `list_datasets` yields, in order. */
  function DatasetIds(datasets: seq<Dataset>): (ids: seq<string>)
    ensures |ids| == |datasets|
    ensures forall i :: 0 <= i < |datasets| ==> ids[i] == datasets[i].datasetId
  {
    seq(|datasets|, i requires 0 <= i < |datasets| => datasets[i].datasetId)
  }

  /** The listed tables of one type, in listing order (exporter.py:93, 111 and 210). */
  function OfType(tables: seq<TableEntry>, tableType: string): (r: seq<TableEntry>)
    ensures |r| <= |tables|
    ensures forall e :: e in r ==> e in tables && e.tableType == tableType
  {
    if |tables| == 0 then []
    else (if tables[0].tableType == tableType then [tables[0]] else []) + OfType(tables[1..], tableType)
  }

  /** Every listed table of the type is kept. */
  lemma {:induction false} OfTypeKeepsAll(tables: seq<TableEntry>, tableType: string, e: TableEntry)
    requires e in tables && e.tableType == tableType
    ensures e in OfType(tables, tableType)
  {
    if tables[0] != e {
      OfTypeKeepsAll(tables[1..], tableType, e);
    }
  }

  /** Keeping one type keeps the listing order: filtering distributes over concatenation. */
  lemma {:induction false} OfTypeAppend(a: seq<TableEntry>, b: seq<TableEntry>, tableType: string)
    ensures OfType(a + b, tableType) == OfType(a, tableType) + OfType(b, tableType)
  {
    if |a| == 0 {
      assert a + b == b;
    } else {
      var head := if a[0].tableType == tableType then [a[0]] else [];
      assert (a + b)[0] == a[0] && (a + b)[1..] == a[1..] + b;
      OfTypeAppend(a[1..], b, tableType);
      assert head + (OfType(a[1..], tableType) + OfType(b, tableType))
        == (head + OfType(a[1..], tableType)) + OfType(b, tableType);
    }
  }

  /** The same at a split point of one listing. */
  lemma OfTypeOfPrefix(tables: seq<TableEntry>, tableType: string, n: nat)
    requires n <= |tables|
    ensures OfType(tables, tableType) == OfType(tables[..n], tableType) + OfType(tables[n..], tableType)
  {
    assert tables == tables[..n] + tables[n..];
    OfTypeAppend(tables[..n], tables[n..], tableType);
  }
}
