/** The Garmin fetcher of the deployed analysis function: log in, wipe the
    scratch directory, list the recent activities, turn each into a record
    (downloading and parsing the TCX laps of runs), then wipe again and log out.
    Every failure it anticipates comes back as an error object. */
module GarminActivities {

  import opened Wrappers
  import opened Numbers
  import opened LapFormat
  import opened Records
  import opened ScratchDir

  const MissingCredentials := "Missing GARMIN_USERNAME or GARMIN_PASSWORD environment variables"

  /** The interval rows of a TCX file, lap by lap; none when the file does not
      parse, a number in a lap does not parse, or there are no laps. */
  method ParseTcxIntervals(doc: TcxDocument) returns (intervals: Option<seq<string>>)
    ensures intervals == TcxIntervals(doc)
  {
    if doc.Unparseable? {
      return None;
    }
    var laps := doc.laps;
    var rows: seq<string> := [];
    var i := 0;
    while i < |laps|
      invariant 0 <= i <= |laps|
      invariant AllReadable(laps[..i])
      invariant rows == LapRows(laps[..i])
    {
      var lap := laps[i];
      if lap.totalTimeSeconds.Malformed? || lap.distanceMeters.Malformed?
         || lap.averageHeartRate.Malformed? {
        assert !LapReadable(laps[i]);
        return None;
      }
      var durS := FloatOf(lap.totalTimeSeconds);
      var distM := FloatOf(lap.distanceMeters);
      var avgHr := FloatOf(lap.averageHeartRate);
      var lapName := lap.intensity.GetOr("lap");
      rows := rows + [IntervalRow(lapName, distM, durS, None, avgHr)];
      LapRowsStep(laps, i);
      i := i + 1;
    }
    assert laps[..i] == laps;
    if rows == [] {
      return None;
    }
    assert AllReadable(laps);
    return Some(rows);
  }

  /** Fetch the `nRecent` most recent activities as records, with the calls made
      on the service and the scratch directory `.fitcache` under `cacheRoot`. */
  method GetRecentGarminActivities(creds: Credentials, garmin: GarminService, cacheRoot: string, nRecent: int)
    returns (result: Fetched, calls: seq<GarminCall>)
    ensures !Truthy(creds.username) || !Truthy(creds.password) ==>
      result == ErrorObject(MissingCredentials) && calls == []
    ensures Truthy(creds.username) && Truthy(creds.password) && garmin.loginError.Some? ==>
      result == ErrorObject("Failed to authenticate with Garmin Connect: " + garmin.loginError.value)
      && calls == [Login]
    ensures (Truthy(creds.username) && Truthy(creds.password) && garmin.loginError.None?
             && garmin.listing.Failure?) ==>
      var dir := JoinPath(cacheRoot, CacheDirName);
      result == ErrorObject("Failed to fetch activities: " + garmin.listing.error)
      && calls == [Login, WipeCache(dir), ListActivities(0, nRecent), WipeCache(dir), Logout]
    ensures (Truthy(creds.username) && Truthy(creds.password) && garmin.loginError.None?
             && garmin.listing.Success?) ==>
      var dir := JoinPath(cacheRoot, CacheDirName);
      result == ActivityList(NormaliseAll(garmin.listing.value, garmin.tcx))
      && calls == [Login, WipeCache(dir), ListActivities(0, nRecent)]
                  + Downloads(garmin.listing.value) + [WipeCache(dir), Logout]
  {
    if !Truthy(creds.username) || !Truthy(creds.password) {
      return ErrorObject(MissingCredentials), [];
    }
    calls := [Login];
    if garmin.loginError.Some? {
      return ErrorObject("Failed to authenticate with Garmin Connect: " + garmin.loginError.value), calls;
    }
    var cacheDir := JoinPath(cacheRoot, CacheDirName);
    calls := calls + [WipeCache(cacheDir)];
    calls := calls + [ListActivities(0, nRecent)];
    if garmin.listing.Failure? {
      calls := calls + [WipeCache(cacheDir), Logout];
      return ErrorObject("Failed to fetch activities: " + garmin.listing.error), calls;
    }
    var activities := garmin.listing.value;
    var results, downloads := RecordsOf(activities, garmin.tcx);
    calls := calls + downloads + [WipeCache(cacheDir), Logout];
    return ActivityList(results), calls;
  }

  /** The loop over the listed activities: one record each, in order, and one TCX
      download per run with a truthy identifier. */
  method RecordsOf(activities: seq<RawActivity>, tcx: IdValue -> TcxFetch)
    returns (results: seq<Activity>, downloads: seq<GarminCall>)
    ensures results == NormaliseAll(activities, tcx)
    ensures downloads == Downloads(activities)
  {
    results := [];
    downloads := [];
    var i := 0;
    while i < |activities|
      invariant 0 <= i <= |activities|
      invariant |results| == i
      invariant forall k :: 0 <= k < i ==> results[k] == Normalise(activities[k], tcx)
      invariant downloads == Downloads(activities[..i])
    {
      var record, download := ActivityRecord(activities[i], tcx);
      results := results + [record];
      downloads := downloads + download;
      DownloadsStep(activities, i);
      i := i + 1;
    }
    assert activities[..i] == activities;
  }

  /** The record of one listed activity, and its TCX download when it is a run
      with a truthy identifier. */
  method ActivityRecord(activity: RawActivity, tcx: IdValue -> TcxFetch)
    returns (record: Activity, download: seq<GarminCall>)
    ensures record == Normalise(activity, tcx)
    ensures download == if WantsIntervals(activity) then [FetchTcx(ChooseId(activity).value)] else []
  {
    var name := OrElse(activity.activityName, activity.activityNameOriginal);
    var activityId := ChooseId(activity);
    var distanceKm: Option<Number> := None;
    if activity.distance.Some? {
      distanceKm := Some(RoundTo(activity.distance.value / 1000.0, 2));
    }
    var durationMin: Option<Number> := None;
    if activity.duration.Some? {
      durationMin := Some(RoundTo(activity.duration.value / 60.0, 1));
    }
    var intervals: Option<seq<string>> := None;
    download := [];
    if IdTruthy(activityId) && activity.typeKey == Some("running") {
      download := [FetchTcx(activityId.value)];
      var tcxFile := tcx(activityId.value);
      if tcxFile.Downloaded? {
        intervals := ParseTcxIntervals(tcxFile.doc);
      }
    }
    record := Activity(activityId, activity.startTimeLocal, activity.typeKey,
                       distanceKm, durationMin, name, intervals);
  }
}
