/** The activity records both Garmin fetchers produce: a raw activity as Garmin
    Connect lists it, the seven-key record written for it, the TCX interval list
    attached to running activities, and the calls a fetch makes on the service
    and on the scratch directory. */
module Records {

  import opened Wrappers
  import opened Numbers
  import opened LapFormat

  /** An activity identifier as Garmin returns it: a number or a text. */
  datatype IdValue = IntId(n: int) | TextId(t: string)

  /** Python truthiness of an optional identifier. */
  predicate IdTruthy(id: Option<IdValue>) {
    match id
    case None => false
    case Some(IntId(n)) => n != 0
    case Some(TextId(t)) => t != ""
  }

  /** The fields of one listed activity that the fetchers read; a field that is
      missing, null or (for distance and duration) not a number is `None`. */
  datatype RawActivity = RawActivity(
    activityName: Option<string>,
    activityNameOriginal: Option<string>,
    typeKey: Option<string>,
    startTimeLocal: Option<string>,
    activityId: Option<IdValue>,
    activityIdOriginal: Option<IdValue>,
    activityUUID: Option<IdValue>,
    distance: Option<real>,
    duration: Option<real>)

  /** The record written for one activity; every record carries all seven keys. */
  datatype Activity = Activity(
    activityId: Option<IdValue>,
    startTimeLocal: Option<string>,
    activityType: Option<string>,
    distanceKm: Option<Number>,
    durationMin: Option<Number>,
    name: Option<string>,
    intervals: Option<seq<string>>)

  /** What fetching the TCX file of one activity gives: no file (both the direct
      download and the original archive failed or held none) or the file. */
  datatype TcxFetch = NoTcx | Downloaded(doc: TcxDocument)

  /** Garmin Connect as a fetch sees it: whether logging in raises (with the
      exception's message), what listing activities gives, and the TCX file of
      each activity. */
  datatype GarminService = GarminService(
    loginError: Option<string>,
    listing: Result<seq<RawActivity>>,
    tcx: IdValue -> TcxFetch)

  datatype Credentials = Credentials(username: Option<string>, password: Option<string>)

  /** One call a fetch makes, in order. */
  datatype GarminCall = Login | ListActivities(start: int, limit: int) | FetchTcx(id: IdValue)
                      | WipeCache(dir: string) | Logout

  /** The JSON a fetch returns: an error object or the list of records; the
      handlers also reject any other JSON value, which no fetch writes. */
  datatype Fetched = ErrorObject(error: string) | ActivityList(records: seq<Activity>) | OtherJson

  /** The identifier of an activity: the first truthy one of `activityId`,
      `activityIdOriginal` and `activityUUID`, else the last of them. */
  function ChooseId(a: RawActivity): Option<IdValue> {
    if IdTruthy(a.activityId) then a.activityId
    else if IdTruthy(a.activityIdOriginal) then a.activityIdOriginal
    else a.activityUUID
  }

  /** Interval data is fetched exactly for running activities with a truthy
      identifier. */
  predicate WantsIntervals(a: RawActivity) {
    IdTruthy(ChooseId(a)) && a.typeKey == Some("running")
  }

  /** The interval list of an activity: the lap rows of its TCX file when it is
      a run whose file could be fetched and parsed, else none. */
  function IntervalsOf(a: RawActivity, tcx: IdValue -> TcxFetch): Option<seq<string>> {
    if WantsIntervals(a) then
      match tcx(ChooseId(a).value)
      case NoTcx => None
      case Downloaded(doc) => TcxIntervals(doc)
    else None
  }

  /** The record of one activity. Distances are kilometres rounded to two
      decimals, durations minutes rounded to one; the name falls back to the
      original name when empty. */
  function Normalise(a: RawActivity, tcx: IdValue -> TcxFetch): Activity
  {
    Activity(
      ChooseId(a),
      a.startTimeLocal,
      a.typeKey,
      match a.distance case Some(d) => Some(RoundTo(d / 1000.0, 2)) case None => None,
      match a.duration case Some(d) => Some(RoundTo(d / 60.0, 1)) case None => None,
      OrElse(a.activityName, a.activityNameOriginal),
      IntervalsOf(a, tcx))
  }

  /** The records of a listing: one per activity, in listing order. */
  function NormaliseAll(acts: seq<RawActivity>, tcx: IdValue -> TcxFetch): (rs: seq<Activity>)
    ensures |rs| == |acts|
    ensures forall i :: 0 <= i < |acts| ==> rs[i] == Normalise(acts[i], tcx)
  {
    seq(|acts|, i requires 0 <= i < |acts| => Normalise(acts[i], tcx))
  }

  /** The TCX downloads of a listing: one per activity with an interval fetch,
      in listing order. */
  function Downloads(acts: seq<RawActivity>): (calls: seq<GarminCall>)
    ensures |calls| <= |acts|
    ensures forall i :: 0 <= i < |calls| ==> calls[i].FetchTcx?
  {
    if acts == [] then []
    else
      var a := acts[|acts| - 1];
      Downloads(acts[..|acts| - 1]) + (if WantsIntervals(a) then [FetchTcx(ChooseId(a).value)] else [])
  }

  // ----- lemmas -----

  /** What a record holds: the chosen identifier, the start time and type as
      listed, distance and duration exactly when listed (kilometres to two
      decimals, minutes to one, each within half a unit of the last decimal),
      the name with its fallback, and intervals only for runs, never empty. */
  lemma NormaliseFields(a: RawActivity, tcx: IdValue -> TcxFetch, r: Activity)
    requires r == Normalise(a, tcx)
    ensures r.activityId == ChooseId(a)
    ensures r.startTimeLocal == a.startTimeLocal && r.activityType == a.typeKey
    ensures r.distanceKm.Some? <==> a.distance.Some?
    ensures a.distance.Some? ==> r.distanceKm.value.Dec? && r.distanceKm.value.places == 2
    ensures a.distance.Some? ==>
      a.distance.value / 1000.0 - 0.005 <= r.distanceKm.value.Value() <= a.distance.value / 1000.0 + 0.005
    ensures r.durationMin.Some? <==> a.duration.Some?
    ensures a.duration.Some? ==> r.durationMin.value.Dec? && r.durationMin.value.places == 1
    ensures a.duration.Some? ==>
      a.duration.value / 60.0 - 0.05 <= r.durationMin.value.Value() <= a.duration.value / 60.0 + 0.05
    ensures Truthy(a.activityName) ==> r.name == a.activityName
    ensures !Truthy(a.activityName) ==> r.name == a.activityNameOriginal
    ensures r.intervals.Some? ==> WantsIntervals(a) && |r.intervals.value| > 0
  {
    assert Pow10(2) == 100 && Pow10(1) == 10;
  }

  /** One more activity adds its download, if it has one, at the end. */
  lemma DownloadsStep(acts: seq<RawActivity>, i: nat)
    requires i < |acts|
    ensures Downloads(acts[..i + 1]) ==
      Downloads(acts[..i]) + (if WantsIntervals(acts[i]) then [FetchTcx(ChooseId(acts[i]).value)] else [])
  {
    assert acts[..i + 1][..i] == acts[..i];
  }

  /** The identifier is truthy exactly when one of the three candidates is. */
  lemma ChooseIdTruthy(a: RawActivity)
    ensures IdTruthy(ChooseId(a)) <==>
      IdTruthy(a.activityId) || IdTruthy(a.activityIdOriginal) || IdTruthy(a.activityUUID)
  {
  }

  /** Only runs are downloaded: every download is for an activity of the listing
      that is a run with that identifier, and there is one per such run. */
  lemma {:induction false} DownloadsAreRuns(acts: seq<RawActivity>, id: IdValue)
    ensures FetchTcx(id) in Downloads(acts) <==>
      exists i :: 0 <= i < |acts| && WantsIntervals(acts[i]) && ChooseId(acts[i]) == Some(id)
  {
    if acts != [] {
      var init := acts[..|acts| - 1];
      DownloadsAreRuns(init, id);
      assert forall i :: 0 <= i < |init| ==> init[i] == acts[i];
      if exists i :: 0 <= i < |acts| && WantsIntervals(acts[i]) && ChooseId(acts[i]) == Some(id) {
        var i :| 0 <= i < |acts| && WantsIntervals(acts[i]) && ChooseId(acts[i]) == Some(id);
        if i < |init| {
          assert WantsIntervals(init[i]) && ChooseId(init[i]) == Some(id);
        }
      }
    }
  }

  /** The number of downloads is the number of runs with a truthy identifier. */
  lemma {:induction false} DownloadCount(acts: seq<RawActivity>)
    ensures |Downloads(acts)| == |set i | 0 <= i < |acts| && WantsIntervals(acts[i])|
  {
    if acts != [] {
      var n := |acts| - 1;
      var init := acts[..n];
      DownloadCount(init);
      var before := set i | 0 <= i < n && WantsIntervals(init[i]);
      var all := set i | 0 <= i < |acts| && WantsIntervals(acts[i]);
      if WantsIntervals(acts[n]) {
        assert all == before + {n};
      } else {
        assert all == before;
      }
    }
  }
}
