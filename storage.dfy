/** What the analysis handlers write to the bucket and the web apps read back:
    one JSON document per analysis under the `run-analysis/` prefix, and the
    object listing the readers choose the latest document from. */
module Storage {

  import opened Wrappers
  import opened Records

  const DefaultOutputPrefix := "run-analysis/"

  /** A stored analysis document; a key the writer did not set is `None`. */
  datatype Document = Document(
    timestamp: Option<string>,
    analyzedRun: Option<Activity>,
    recentRuns: Option<seq<Activity>>,
    analysis: Option<string>,
    suggestion: Option<string>,
    contextActivitiesCount: Option<int>,
    recentRunsHtml: Option<string>)

  /** The object key of the document written at `timestamp`. */
  function AnalysisKey(prefix: string, timestamp: string): (key: string)
    ensures |key| == |prefix| + |timestamp| + 14
    ensures key[..|prefix|] == prefix && key[|key| - 14..] == "_analysis.json"
  {
    prefix + timestamp + "_analysis.json"
  }

  /** One entry of an object listing. */
  datatype StoredObject = StoredObject(key: string, lastModified: int)

  /** The position of the latest object of a non-empty listing: it has the
      greatest modification time, and no earlier entry has the same one (the
      first maximum, as `max` and a stable descending sort both pick). */
  function LatestIndex(objs: seq<StoredObject>): (i: nat)
    requires objs != []
    ensures i < |objs|
    ensures forall j :: 0 <= j < |objs| ==> objs[j].lastModified <= objs[i].lastModified
    ensures forall j :: 0 <= j < i ==> objs[j].lastModified < objs[i].lastModified
  {
    if |objs| == 1 then 0
    else
      var n := |objs| - 1;
      var i := LatestIndex(objs[..n]);
      if objs[n].lastModified > objs[i].lastModified then n else i
  }

  /** Object `i` is the latest of the listing: none is newer, and none before it
      is as new. */
  predicate IsLatest(objs: seq<StoredObject>, i: int) {
    && 0 <= i < |objs|
    && (forall j :: 0 <= j < |objs| ==> objs[j].lastModified <= objs[i].lastModified)
    && (forall j :: 0 <= j < i ==> objs[j].lastModified < objs[i].lastModified)
  }

  // ----- lemmas -----

  /** The latest object is determined by the two properties of `LatestIndex`. */
  lemma LatestIndexUnique(objs: seq<StoredObject>, i: nat)
    requires i < |objs|
    requires forall j :: 0 <= j < |objs| ==> objs[j].lastModified <= objs[i].lastModified
    requires forall j :: 0 <= j < i ==> objs[j].lastModified < objs[i].lastModified
    ensures LatestIndex(objs) == i
  {
    var k := LatestIndex(objs);
    assert !(k < i) && !(i < k);
  }
}
