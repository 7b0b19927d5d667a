/** The Garmin fetcher of the original analysis function. Its row helpers are
    those of `LapFormat`; it differs from `GarminActivities` in what it does on
    failure: logging in and listing activities are not guarded, so their errors
    propagate to the caller, and the scratch directory is wiped only once the
    listing has arrived. */
module GetFromGarmin {

  import opened Wrappers
  import opened Numbers
  import opened LapFormat
  import opened Records
  import opened ScratchDir

  const MissingCredentials := "Missing GARMIN_EMAIL / GARMIN_PASSWORD in .env"

  /** The list of rows that `_add_row` appends to. */
  class RowList {
    var rows: seq<string>

    constructor ()
      ensures rows == []
    {
      rows := [];
    }

    /** Appends the row of one lap: exactly one new row at the end, the earlier
        rows unchanged. */
    method AddRow(title: string, distM: Option<real>, durS: Option<real>,
                  speed: Option<real>, hr: Option<real>)
      modifies this
      ensures rows == old(rows) + [IntervalRow(title, distM, durS, speed, hr)]
    {
      var pace: Option<real>;
      if speed.Some? && speed.value > 0.0 {
        pace := Some((1000.0 / speed.value) / 60.0);
      } else {
        pace := CalculatePace(distM, durS);
      }
      assert pace == RowPace(distM, durS, speed);
      var distanceKm := KmText(distM);
      var durationText := FormatDuration(durS);
      var paceText := FormatPace(pace).GetOr("?");
      var hrText := HrText(hr);
      var fields := RowFields(title, distanceKm, durationText, paceText, hrText);
      assert fields == IntervalFields(title, distM, durS, speed, hr);
      rows := rows + [RenderRow(fields)];
    }
  }

  /** The interval rows of a TCX file, one per lap in document order; none when
      the file or a number in it does not parse, or when there are no rows. */
  method IntervalsFromTcxPath(doc: TcxDocument) returns (intervals: Option<seq<string>>)
    ensures intervals == TcxIntervals(doc)
  {
    if doc.Unparseable? {
      return None;
    }
    var laps := doc.laps;
    var list := new RowList();
    var i := 0;
    while i < |laps|
      invariant 0 <= i <= |laps|
      invariant AllReadable(laps[..i])
      invariant list.rows == LapRows(laps[..i])
    {
      var lap := laps[i];
      if lap.totalTimeSeconds.Malformed? || lap.distanceMeters.Malformed?
         || lap.averageHeartRate.Malformed? {
        assert !LapReadable(laps[i]);
        return None;
      }
      var durS := FloatOf(lap.totalTimeSeconds);
      var distM := FloatOf(lap.distanceMeters);
      var avgHr := FloatOf(lap.averageHeartRate);
      var lapName := lap.intensity.GetOr("lap");
      list.AddRow(lapName, distM, durS, None, avgHr);
      LapRowsStep(laps, i);
      i := i + 1;
    }
    assert laps[..i] == laps;
    if list.rows == [] {
      return None;
    }
    return Some(list.rows);
  }

  /** Fetch the `nRecent` most recent activities as records, with the calls made
      on the service and the scratch directory `.fitcache` under `cacheRoot`. A
      `Failure` is an exception escaping to the caller. */
  method GetRecentGarminActivities(creds: Credentials, garmin: GarminService, cacheRoot: string, nRecent: int)
    returns (result: Result<Fetched>, calls: seq<GarminCall>)
    ensures !Truthy(creds.username) || !Truthy(creds.password) ==>
      result == Success(ErrorObject(MissingCredentials)) && calls == []
    ensures Truthy(creds.username) && Truthy(creds.password) && garmin.loginError.Some? ==>
      result == Failure(garmin.loginError.value) && calls == [Login]
    ensures (Truthy(creds.username) && Truthy(creds.password) && garmin.loginError.None?
             && garmin.listing.Failure?) ==>
      result == Failure(garmin.listing.error) && calls == [Login, ListActivities(0, nRecent)]
    ensures (Truthy(creds.username) && Truthy(creds.password) && garmin.loginError.None?
             && garmin.listing.Success?) ==>
      var dir := JoinPath(cacheRoot, CacheDirName);
      result == Success(ActivityList(NormaliseAll(garmin.listing.value, garmin.tcx)))
      && calls == [Login, ListActivities(0, nRecent), WipeCache(dir)]
                  + Downloads(garmin.listing.value) + [WipeCache(dir), Logout]
  {
    if !Truthy(creds.username) || !Truthy(creds.password) {
      return Success(ErrorObject(MissingCredentials)), [];
    }
    calls := [Login];
    if garmin.loginError.Some? {
      return Failure(garmin.loginError.value), calls;
    }
    calls := calls + [ListActivities(0, nRecent)];
    if garmin.listing.Failure? {
      return Failure(garmin.listing.error), calls;
    }
    var activities := garmin.listing.value;
    var cacheDir := JoinPath(cacheRoot, CacheDirName);
    calls := calls + [WipeCache(cacheDir)];
    var out, downloads := RecentRecords(activities, garmin.tcx);
    calls := calls + downloads + [WipeCache(cacheDir), Logout];
    return Success(ActivityList(out)), calls;
  }

  /** The loop over the listed activities: one record each, in order, and one TCX
      download per run with a truthy identifier. */
  method RecentRecords(activities: seq<RawActivity>, tcx: IdValue -> TcxFetch)
    returns (out: seq<Activity>, downloads: seq<GarminCall>)
    ensures out == NormaliseAll(activities, tcx)
    ensures downloads == Downloads(activities)
  {
    out := [];
    downloads := [];
    var i := 0;
    while i < |activities|
      invariant 0 <= i <= |activities|
      invariant |out| == i
      invariant forall k :: 0 <= k < i ==> out[k] == Normalise(activities[k], tcx)
      invariant downloads == Downloads(activities[..i])
    {
      var record, download := ActivityRecord(activities[i], tcx);
      out := out + [record];
      downloads := downloads + download;
      DownloadsStep(activities, i);
      i := i + 1;
    }
    assert activities[..i] == activities;
  }

  /** The record of one listed activity, and its TCX download when it is a run
      with a truthy identifier. */
  method ActivityRecord(activity: RawActivity, tcx: IdValue -> TcxFetch)
    returns (record: Activity, download: seq<GarminCall>)
    ensures record == Normalise(activity, tcx)
    ensures download == if WantsIntervals(activity) then [FetchTcx(ChooseId(activity).value)] else []
  {
    var name := OrElse(activity.activityName, activity.activityNameOriginal);
    var activityId := ChooseId(activity);
    var distanceKm: Option<Number> := None;
    if activity.distance.Some? {
      distanceKm := Some(RoundTo(activity.distance.value / 1000.0, 2));
    }
    var durationMin: Option<Number> := None;
    if activity.duration.Some? {
      durationMin := Some(RoundTo(activity.duration.value / 60.0, 1));
    }
    var intervals: Option<seq<string>> := None;
    download := [];
    if IdTruthy(activityId) && activity.typeKey == Some("running") {
      download := [FetchTcx(activityId.value)];
      var tcxFile := tcx(activityId.value);
      if tcxFile.Downloaded? {
        intervals := IntervalsFromTcxPath(tcxFile.doc);
      }
    }
    record := Activity(activityId, activity.startTimeLocal, activity.typeKey,
                       distanceKm, durationMin, name, intervals);
  }
}
