/**
 * base.py: the bucket as an abstract store of named blobs, listed in
 * name order as Cloud Storage lists them; the bucket-resolution steps of
 * `BigQueryBase.__init__`; and `get_project_config`.
 */
module Base {
  import opened Common
  import opened Values

  // ---------------------------------------------------------------------
  // Name order
  // ---------------------------------------------------------------------

  /** Lexicographic order on names, character by character. */
  predicate NameLess(a: string, b: string)
    decreases |a|
  {
    |b| > 0 && (|a| == 0 || a[0] < b[0] || (a[0] == b[0] && NameLess(a[1..], b[1..])))
  }

  lemma NameLessIrreflexive(a: string)
    ensures !NameLess(a, a)
  {
  }

  lemma NameLessTransitive(a: string, b: string, c: string)
    requires NameLess(a, b) && NameLess(b, c)
    ensures NameLess(a, c)
  {
  }

  lemma NameLessTotal(a: string, b: string)
    requires a != b
    ensures NameLess(a, b) || NameLess(b, a)
  {
    if |a| > 0 && |b| > 0 && a[0] == b[0] {
      assert a == [a[0]] + a[1..] && b == [b[0]] + b[1..];
    }
  }

  /** Strictly increasing in name order, hence without repetition. */
  predicate Sorted(s: seq<string>)
  {
    forall i, j :: 0 <= i < j < |s| ==> NameLess(s[i], s[j])
  }

  /** `s` with `x` placed at its position in name order (once). */
  function InsertName(s: seq<string>, x: string): (r: seq<string>)
    requires Sorted(s)
    ensures Sorted(r)
    ensures forall y :: y in r <==> y in s || y == x
  {
    if |s| == 0 then [x]
    else if x == s[0] then s
    else if NameLess(x, s[0]) then
      forall j | 0 < j < |s| ensures NameLess(x, s[j]) {
        NameLessTransitive(x, s[0], s[j]);
      }
      [x] + s
    else
      NameLessTotal(x, s[0]);
      var tail := InsertName(s[1..], x);
      assert forall y :: y in tail ==> NameLess(s[0], y);
      [s[0]] + tail
  }

  lemma SortedUnique(s: seq<string>, i: nat, j: nat)
    requires Sorted(s) && i < |s| && j < |s| && s[i] == s[j]
    ensures i == j
  {
    if i < j { NameLessIrreflexive(s[i]); }
    if j < i { NameLessIrreflexive(s[j]); }
  }

  // ---------------------------------------------------------------------
  // The bucket
  // ---------------------------------------------------------------------

  /** A stored blob: JSON text (held as the value it encodes) or a data file. */
  datatype Blob = Json(value: Value) | Parquet

  /** `json.loads(blob.download_as_text())`: a stored JSON blob's value. */
  function Lookup(blobs: map<string, Blob>, name: string): (r: Option<Value>)
  {
    if name in blobs && blobs[name].Json? then Some(blobs[name].value) else None
  }

  class Store {
    const name: string
    const location: string
    var blobs: map<string, Blob>
    /** The blob names in the order `list_blobs()` yields them. */
    var names: seq<string>

    ghost predicate Valid()
      reads this
    {
      Sorted(names) && forall n :: n in names <==> n in blobs
    }

    constructor (name: string, location: string)
      ensures Valid()
      ensures this.name == name && this.location == location
      ensures blobs == map[] && names == []
    {
      this.name := name;
      this.location := location;
      blobs := map[];
      names := [];
    }

    /** `read_from_gcs`: `None` stands for a missing blob or one that is not JSON. */
    function Read(blobName: string): (r: Option<Value>)
      reads this
    {
      Lookup(blobs, blobName)
    }

    /** base.py:43-45, `save_to_gcs`: writes key `blobName` and nothing else. */
    method Save(blobName: string, data: Value)
      requires Valid()
      modifies this
      ensures Valid()
      ensures blobs == old(blobs)[blobName := Json(data)]
      ensures Read(blobName) == Some(data)
      ensures forall n :: n != blobName ==> Read(n) == old(Read(n))
    {
      blobs := blobs[blobName := Json(data)];
      names := InsertName(names, blobName);
    }

    /** One data file written by an extract job. */
    method PutData(blobName: string)
      requires Valid()
      modifies this
      ensures Valid()
      ensures blobs == old(blobs)[blobName := Parquet]
    {
      blobs := blobs[blobName := Parquet];
      names := InsertName(names, blobName);
    }
  }

  // ---------------------------------------------------------------------
  // base.py:10-33, resolving the bucket in BigQueryBase.__init__
  // ---------------------------------------------------------------------

  /** What `get_bucket` reports. */
  datatype BucketLookup = Found(bucket: Store) | NotFound | Forbidden

  /** What `create_bucket` reports. */
  datatype Creation = Creates | Conflict

  /** The two errors the constructor re-raises. */
  datatype BucketError = AccessDenied | NameTaken

  class BucketClient {
    const projectId: string
    const bucketName: string
    const region: string
    var bucket: Store?
    /** The regions passed to `create_bucket`, in call order. */
    var createRequests: seq<string>
    /** The error the constructor raised, if any. */
    var error: Option<BucketError>

    /**
     * A bucket that is found is used as it is; a missing one is created
     * in the client's region; Forbidden is fatal before any creation and
     * Conflict is fatal after it. Without an error there is a bucket.
     */
    constructor (projectId: string, bucketName: string, region: string, lookup: BucketLookup, creation: Creation)
      ensures this.projectId == projectId && this.bucketName == bucketName && this.region == region
      ensures lookup.Found? ==> bucket == lookup.bucket && createRequests == [] && error.None?
      ensures lookup.Forbidden? ==> error == Some(AccessDenied) && createRequests == []
      ensures lookup.NotFound? ==> createRequests == [region]
      ensures lookup.NotFound? && creation.Conflict? ==> error == Some(NameTaken)
      ensures lookup.NotFound? && creation.Creates? ==>
        error.None? && bucket != null && fresh(bucket) && bucket.Valid() &&
        bucket.name == bucketName && bucket.location == region && bucket.blobs == map[]
      ensures error.None? ==> bucket != null
    {
      this.projectId := projectId;
      this.bucketName := bucketName;
      this.region := region;
      bucket := null;
      createRequests := [];
      error := None;
      new;
      match lookup {
        case Found(b) => bucket := b;
        case NotFound =>
        case Forbidden => error := Some(AccessDenied);
      }
      if error.None? && bucket == null {
        createRequests := createRequests + [region];
        match creation {
          case Creates => bucket := new Store(bucketName, region);
          case Conflict => error := Some(NameTaken);
        }
      }
    }
  }

  // ---------------------------------------------------------------------
  // base.py:36-41, get_project_config
  // ---------------------------------------------------------------------

  /** The configuration record: the project id and the listed dataset ids in order. */
  function GetProjectConfig(projectId: string, datasetIds: seq<string>): (config: Value)
    ensures config.Dict? && config.entries.Keys == {"project_id", "datasets"}
  {
    Dict(map["project_id" := Str(projectId), "datasets" := List(TextList(datasetIds))])
  }

  function TextList(s: seq<string>): (vs: seq<Value>)
    ensures |vs| == |s|
  {
    if |s| == 0 then [] else [Str(s[0])] + TextList(s[1..])
  }

  /** The texts of a list of values, when every value is a text. */
  function Texts(vs: seq<Value>): (r: Option<seq<string>>)
    ensures r.Some? ==> |r.value| == |vs|
    ensures r.Some? <==> forall i :: 0 <= i < |vs| ==> vs[i].Str?
  {
    if |vs| == 0 then Some([])
    else if !vs[0].Str? then None
    else
      var rest := Texts(vs[1..]);
      assert forall i :: 1 <= i < |vs| ==> vs[1..][i - 1] == vs[i];
      if rest.None? then None else Some([vs[0].s] + rest.value)
  }

  /** One more text at the end adds its text at the end. */
  lemma {:induction false} TextsSnoc(vs: seq<Value>, v: Value)
    requires Texts(vs).Some? && v.Str?
    ensures Texts(vs + [v]) == Some(Texts(vs).value + [v.s])
  {
    if |vs| == 0 {
      assert vs + [v] == [v] && [v][1..] == [];
      assert Texts([v]) == Some([v.s] + []);
      assert [v.s] + [] == [v.s] == Texts(vs).value + [v.s];
    } else {
      assert (vs + [v])[0] == vs[0] && (vs + [v])[1..] == vs[1..] + [v];
      assert Texts(vs[1..]).Some? && Texts(vs).value == [vs[0].s] + Texts(vs[1..]).value;
      TextsSnoc(vs[1..], v);
      assert [vs[0].s] + (Texts(vs[1..]).value + [v.s]) == [vs[0].s] + Texts(vs[1..]).value + [v.s];
    }
  }

  /** `config['project_id']`, when it is a text. */
  function ConfigProjectId(config: Value): (r: Option<string>)
  {
    if config.Dict? && "project_id" in config.entries && config.entries["project_id"].Str?
    then Some(config.entries["project_id"].s) else None
  }

  /** `config['datasets']`, when it is a list of texts. */
  function ConfigDatasetIds(config: Value): (r: Option<seq<string>>)
  {
    if config.Dict? && "datasets" in config.entries && config.entries["datasets"].List?
    then Texts(config.entries["datasets"].items) else None
  }

  lemma {:induction false} TextsOfTextList(s: seq<string>)
    ensures Texts(TextList(s)) == Some(s)
  {
    if |s| > 0 {
      var vs := TextList(s);
      assert vs[0] == Str(s[0]) && vs[1..] == TextList(s[1..]);
      TextsOfTextList(s[1..]);
      assert s == [s[0]] + s[1..];
    }
  }

  /**
   * The configuration names the project and holds the listed dataset ids,
   * in listing order and with the same count.
   */
  lemma ProjectConfigRoundTrip(projectId: string, datasetIds: seq<string>)
    ensures ConfigProjectId(GetProjectConfig(projectId, datasetIds)) == Some(projectId)
    ensures ConfigDatasetIds(GetProjectConfig(projectId, datasetIds)) == Some(datasetIds)
  {
    TextsOfTextList(datasetIds);
  }
}
