/** The analysis function of the original layout. It checks its configuration,
    fetches the thirty most recent activities and keeps those of the last seven
    days. For every run of the last twelve hours it asks the model for a short
    note on that run, the week's runs as prompt text and the training plan, and
    stores each note with the three newest runs of the week. The secret store,
    the fetch, the bucket, the model and the clocks are parameters. */
module LambdaHandler {

  import opened Wrappers
  import opened Text
  import opened Numbers
  import opened Records
  import opened ActivityFilters
  import opened RunOrder
  import opened Storage
  import opened HandlerCommon

  const AnalysisMaxTokens := 300
  const StoredRuns := 3
  const MissingSecretArn := "GARMIN_SECRET_ARN environment variable is required"
  const MissingBucket := "S3_BUCKET_NAME environment variable is required"
  const NoRunsContext := "No running activities in the last 7 days."
  const IntervalsHeading := "- **Intervals/Laps**:"

  /** A request to the model: the training plan, the week's runs as prompt text
      and the run to analyse as prompt text, with the token cap. The prompt prose
      around these values is fixed text. */
  datatype Request = Analysis(plan: string, runsContext: string, run: string, maxTokens: int)

  /** One entry of the handler's `results`. */
  datatype RunResult = RunResult(runName: Option<string>, distanceKm: Option<Number>, outputKey: string)

  /** The body of the handler's response. */
  datatype Body =
    | ErrorBody(error: string)
    | NoRunsBody(message: string, runsAnalyzed: int, totalActivitiesFetched: int)
    | AnalyzedBody(message: string, runsAnalyzed: int, totalActivitiesFetched: int,
                   results: seq<RunResult>)

  datatype Response = Response(statusCode: int, body: Body)

  // ----- prompt text -----

  /** The interval list is shown only when present and non-empty. */
  predicate HasIntervals(a: Activity) {
    a.intervals.Some? && a.intervals.value != []
  }

  /** The four lines every run has. A record always carries `name` and
      `startTimeLocal`, so a null one shows as `None`, not as the default. */
  function HeaderLines(a: Activity): (lines: seq<string>)
    ensures |lines| == 4
  {
    ["### " + ShowText(a.name),
     "- **Date/Time**: " + ShowText(a.startTimeLocal),
     "- **Distance**: " + ShowNumber(a.distanceKm) + " km",
     "- **Duration**: " + ShowNumber(a.durationMin) + " minutes"]
  }

  function IntervalLines(intervals: seq<string>): (lines: seq<string>)
    ensures |lines| == |intervals|
  {
    seq(|intervals|, i requires 0 <= i < |intervals| => "  - " + intervals[i])
  }

  /** The lines of a run's prompt text: the header, then the intervals under
      their heading when there are any. */
  function RunLines(a: Activity): seq<string> {
    HeaderLines(a) + (if HasIntervals(a) then [IntervalsHeading] + IntervalLines(a.intervals.value) else [])
  }

  function RunPrompt(a: Activity): string {
    Join(RunLines(a), "\n")
  }

  /** Format one run for the prompt, line by line. */
  method FormatRunForPrompt(activity: Activity) returns (prompt: string)
    ensures prompt == RunPrompt(activity)
  {
    var lines: seq<string> := [];
    lines := lines + ["### " + ShowText(activity.name)];
    lines := lines + ["- **Date/Time**: " + ShowText(activity.startTimeLocal)];
    lines := lines + ["- **Distance**: " + ShowNumber(activity.distanceKm) + " km"];
    lines := lines + ["- **Duration**: " + ShowNumber(activity.durationMin) + " minutes"];
    assert lines == HeaderLines(activity);
    var intervals := activity.intervals;
    if intervals.Some? && intervals.value != [] {
      var ivs := intervals.value;
      lines := lines + [IntervalsHeading];
      var i := 0;
      while i < |ivs|
        invariant 0 <= i <= |ivs|
        invariant lines == HeaderLines(activity) + [IntervalsHeading] + IntervalLines(ivs[..i])
      {
        assert IntervalLines(ivs[..i + 1]) == IntervalLines(ivs[..i]) + ["  - " + ivs[i]];
        lines := lines + ["  - " + ivs[i]];
        i := i + 1;
      }
      assert ivs[..i] == ivs;
    }
    assert lines == RunLines(activity);
    prompt := Join(lines, "\n");
  }

  function Prompts(runs: seq<Activity>): (prompts: seq<string>)
    ensures |prompts| == |runs|
  {
    seq(|runs|, i requires 0 <= i < |runs| => RunPrompt(runs[i]))
  }

  /** The week's runs as prompt text: the prompt text of each running activity,
      separated by blank lines, or a fixed sentence when there is none. */
  function RunsContext(activities: seq<Activity>): string {
    var running := Runs(activities);
    if running == [] then NoRunsContext else Join(Prompts(running), "\n\n")
  }

  /** Format every running activity for the prompt, one section each. */
  method FormatAllRunsForContext(activities: seq<Activity>) returns (context: string)
    ensures context == RunsContext(activities)
  {
    var runningActivities := Runs(activities);
    if runningActivities == [] {
      return NoRunsContext;
    }
    var sections := Sections(runningActivities);
    context := Join(sections, "\n\n");
  }

  /** The loop over the running activities: one prompt section each, in order. */
  method Sections(runs: seq<Activity>) returns (sections: seq<string>)
    ensures sections == Prompts(runs)
  {
    sections := [];
    var i := 0;
    while i < |runs|
      invariant 0 <= i <= |runs|
      invariant sections == Prompts(runs[..i])
    {
      var section := FormatRunForPrompt(runs[i]);
      PromptsStep(runs, i);
      sections := sections + [section];
      i := i + 1;
    }
    assert runs[..i] == runs;
  }

  lemma PromptsStep(runs: seq<Activity>, i: nat)
    requires i < |runs|
    ensures Prompts(runs[..i + 1]) == Prompts(runs[..i]) + [RunPrompt(runs[i])]
  {
    var a, b := Prompts(runs[..i + 1]), Prompts(runs[..i]) + [RunPrompt(runs[i])];
    assert |a| == |b|;
    forall k | 0 <= k < |a|
      ensures a[k] == b[k]
    {
      assert runs[..i + 1][k] == runs[k];
    }
  }

  // ----- the stored document -----

  /** What one save writes: the timestamp, the analysed run, the note, the
      number of runs, and the three newest runs of the week, newest first: a
      sub-multiset of the runs, at least as new as every run left out, and the
      head of the runs reordered by a stable sort, so that among runs with the
      same start time the earlier ones in the input are kept, in input order. */
  ghost predicate StoredDocument(d: Document, runData: Activity, analysis: string,
                                 allActivities: seq<Activity>, timestamp: string) {
    var running := Runs(allActivities);
    && d.timestamp == Some(timestamp)
    && d.analyzedRun == Some(runData)
    && d.analysis == Some(analysis) && d.suggestion == None && d.recentRunsHtml == None
    && d.contextActivitiesCount == Some(|running|)
    && d.recentRuns.Some?
    && |d.recentRuns.value| == (if |running| < StoredRuns then |running| else StoredRuns)
    && NewestFirst(d.recentRuns.value)
    && multiset(d.recentRuns.value) <= multiset(running)
    && (forall x, y :: x in d.recentRuns.value && y in multiset(running) - multiset(d.recentRuns.value)
          ==> StrLe(StartKey(y), StartKey(x)))
    && exists s :: && NewestFirst(s) && multiset(s) == multiset(running) && SameTies(s, running)
                   && |d.recentRuns.value| <= |s| && d.recentRuns.value == s[..|d.recentRuns.value|]
  }

  /** Stores the note under `prefix + timestamp + "_analysis.json"` and returns
      that key; sorting raises as in the other handler, and `putError` is the
      bucket's error. `doc` is what was put. */
  method SaveAnalysisToS3(runData: Activity, analysis: string, allActivities: seq<Activity>,
                          prefix: string, timestamp: string, putError: Option<string>)
    returns (key: Result<string>, doc: Option<Document>)
    ensures SortRaises(Runs(allActivities)) ==> key.Failure? && doc == None
    ensures !SortRaises(Runs(allActivities)) ==> doc.Some?
    ensures doc.Some? ==> key == if putError.Some? then Failure(putError.value)
                                 else Success(AnalysisKey(prefix, timestamp))
    ensures doc.Some? ==> StoredDocument(doc.value, runData, analysis, allActivities, timestamp)
  {
    var objectKey := AnalysisKey(prefix, timestamp);
    var runningActivities := Runs(allActivities);
    if SortRaises(runningActivities) {
      return Failure("'<' not supported between instances of 'NoneType' and 'str'"), None;
    }
    var a := new Activity[|runningActivities|](i requires 0 <= i < |runningActivities| => runningActivities[i]);
    assert a[..] == runningActivities;
    SortNewestFirst(a);
    var sorted := a[..];
    var n := if |sorted| < StoredRuns then |sorted| else StoredRuns;
    var recentRuns := sorted[..n];
    TopNewest(sorted, n);
    assert SameTies(sorted, runningActivities) && recentRuns == sorted[..|recentRuns|];
    var output := Document(Some(timestamp), Some(runData), Some(recentRuns), Some(analysis),
                           None, Some(|sorted|), None);
    doc := Some(output);
    if putError.Some? {
      return Failure(putError.value), doc;
    }
    key := Success(objectKey);
  }

  // ----- the handler -----

  /** The request for one run. */
  function RunRequest(plan: string, context: string, run: Activity): Request {
    Analysis(plan, context, RunPrompt(run), AnalysisMaxTokens)
  }

  /** Run `k` is analysed and stored: the model answers with text and the put
      succeeds. */
  predicate RunStored(bedrock: Request -> Reply, plan: string, context: string,
                      recent: seq<Activity>, putErrors: nat -> Option<string>, k: nat)
    requires k < |recent|
  {
    AnalysisText(bedrock(RunRequest(plan, context, recent[k]))).Success? && putErrors(k).None?
  }

  /** The requests for the given runs, in order. */
  function Requests(plan: string, context: string, runs: seq<Activity>): (requests: seq<Request>)
    ensures |requests| == |runs|
  {
    seq(|runs|, k requires 0 <= k < |runs| => RunRequest(plan, context, runs[k]))
  }

  /** A saved entry is the note on `run`: the model answered `reply` with text,
      the put succeeded, and the document under the key of `timestamp` is what
      one save writes. */
  ghost predicate SavedEntry(entry: (string, Document), run: Activity, reply: Reply,
                             putError: Option<string>, allActivities: seq<Activity>,
                             prefix: string, timestamp: string) {
    && AnalysisText(reply).Success? && putError.None?
    && entry.0 == AnalysisKey(prefix, timestamp)
    && StoredDocument(entry.1, run, AnalysisText(reply).value, allActivities, timestamp)
  }

  function Results(recent: seq<Activity>, prefix: string, clock: nat -> string): (rs: seq<RunResult>)
    ensures |rs| == |recent|
  {
    seq(|recent|, k requires 0 <= k < |recent| =>
      RunResult(recent[k].name, recent[k].distanceKm, AnalysisKey(prefix, clock(k))))
  }

  function AnalyzedMessage(n: nat): string {
    "Analyzed " + NatText(n) + " run(s)"
  }

  /** What the handler does with the fetched activities `records`: without a
      run in the last twelve hours, a response saying so; when the plan cannot
      be read, its error; otherwise one request per recent run, in order, each
      followed by the save of its note, up to the first run whose reply has no
      text or whose save fails, whose exception escapes. */
  ghost predicate ActivitiesOutcome(records: seq<Activity>, parse: string -> Option<int>, now: int,
                                    plan: PlanRead, bedrock: Request -> Reply, prefix: string,
                                    clock: nat -> string, putErrors: nat -> Option<string>,
                                    outcome: Result<Response>, sent: seq<Request>,
                                    saved: seq<(string, Document)>)
  {
    var week := InWindow(records, parse, now - ContextDays * SecondsPerDay);
    var recent := RunsInWindow(records, parse, now - TriggerHours * SecondsPerHour);
    && (recent == [] ==>
          outcome == Success(Response(200, NoRunsBody(NoRunsMessage, 0, |week|)))
          && sent == [] && saved == [])
    && (recent != [] && TrainingPlan(plan).Failure? ==>
          outcome == Failure(TrainingPlan(plan).error) && sent == [] && saved == [])
    && (recent != [] && TrainingPlan(plan).Success? ==>
          var text := TrainingPlan(plan).value;
          var context := RunsContext(week);
          && |saved| <= |sent| <= |recent|
          && sent == Requests(text, context, recent[..|sent|])
          && (forall k :: 0 <= k < |saved| ==>
                SavedEntry(saved[k], recent[k], bedrock(sent[k]), putErrors(k), week, prefix, clock(k)))
          && (outcome.Success? <==> |saved| == |recent|)
          && (outcome.Failure? ==> |sent| == |saved| + 1
                                   && !RunStored(bedrock, text, context, recent, putErrors, |saved|))
          && (outcome.Success? ==>
                outcome.value == Response(200, AnalyzedBody(AnalyzedMessage(|recent|), |recent|, |week|,
                                                           Results(recent, prefix, clock)))))
  }

  /** The handler. `secretArn` and `bucket` are the configuration, `secret` what
      reading the credentials gives, `fetched` what the fetcher returns for the
      thirty most recent activities, `parse` and `now` the start-time parser and
      the current time, `plan` the training plan read, `bedrock` the model,
      `clock(k)` the timestamp of the `k`-th save and `putErrors(k)` its error.
      It returns the response or the exception that escapes, the requests sent
      to the model in order, and the documents stored with their keys. */
  method LambdaHandler(secretArn: Option<string>, bucket: Option<string>,
                       secret: Result<(string, string)>, fetched: Fetched,
                       parse: string -> Option<int>, now: int, plan: PlanRead,
                       bedrock: Request -> Reply, prefix: string, clock: nat -> string,
                       putErrors: nat -> Option<string>)
    returns (outcome: Result<Response>, sent: seq<Request>, saved: seq<(string, Document)>)
    ensures !Truthy(secretArn) ==> outcome == Failure(MissingSecretArn) && sent == [] && saved == []
    ensures Truthy(secretArn) && !Truthy(bucket) ==>
      outcome == Failure(MissingBucket) && sent == [] && saved == []
    ensures Truthy(secretArn) && Truthy(bucket) && secret.Failure? ==>
      outcome == Failure(secret.error) && sent == [] && saved == []
    ensures Truthy(secretArn) && Truthy(bucket) && secret.Success? && fetched.ErrorObject? ==>
      outcome == Success(Response(500, ErrorBody(fetched.error))) && sent == [] && saved == []
    ensures Truthy(secretArn) && Truthy(bucket) && secret.Success? && fetched.OtherJson? ==>
      outcome == Success(Response(500, ErrorBody(UnexpectedFormat))) && sent == [] && saved == []
    ensures Truthy(secretArn) && Truthy(bucket) && secret.Success? && fetched.ActivityList? ==>
      ActivitiesOutcome(fetched.records, parse, now, plan, bedrock, prefix, clock, putErrors,
                        outcome, sent, saved)
  {
    sent, saved := [], [];
    if !Truthy(secretArn) {
      return Failure(MissingSecretArn), sent, saved;
    }
    if !Truthy(bucket) {
      return Failure(MissingBucket), sent, saved;
    }
    if secret.Failure? {
      return Failure(secret.error), sent, saved;
    }
    if fetched.ErrorObject? {
      return Success(Response(500, ErrorBody(fetched.error))), sent, saved;
    }
    if !fetched.ActivityList? {
      return Success(Response(500, ErrorBody(UnexpectedFormat))), sent, saved;
    }
    outcome, sent, saved := HandleActivities(fetched.records, parse, now, plan, bedrock, prefix,
                                             clock, putErrors);
  }

  /** The handler from the fetched activities on: the two time windows, the
      plan, then the loop over the recent runs. */
  method HandleActivities(raw: seq<Activity>, parse: string -> Option<int>, now: int, plan: PlanRead,
                          bedrock: Request -> Reply, prefix: string, clock: nat -> string,
                          putErrors: nat -> Option<string>)
    returns (outcome: Result<Response>, sent: seq<Request>, saved: seq<(string, Document)>)
    ensures ActivitiesOutcome(raw, parse, now, plan, bedrock, prefix, clock, putErrors, outcome, sent, saved)
  {
    sent, saved := [], [];
    var allActivities := FilterActivitiesByDate(raw, parse, now, ContextDays);
    var recentRuns := FilterRecentRuns(allActivities, parse, now, TriggerHours);
    RecentRunsOfWeek(raw, parse, now);
    if recentRuns == [] {
      return Success(Response(200, NoRunsBody(NoRunsMessage, 0, |allActivities|))), sent, saved;
    }
    var trainingPlan := TrainingPlan(plan);
    if trainingPlan.Failure? {
      return Failure(trainingPlan.error), sent, saved;
    }
    var allRunsContext := FormatAllRunsForContext(allActivities);
    InWindowStarted(raw, parse, now - ContextDays * SecondsPerDay);
    RunsStarted(allActivities);
    var failure, results;
    failure, sent, saved, results := AnalyzeEachRun(recentRuns, allActivities, trainingPlan.value,
                                                    allRunsContext, bedrock, prefix, clock, putErrors);
    if failure.Some? {
      return Failure(failure.value), sent, saved;
    }
    outcome := Success(Response(200, AnalyzedBody(AnalyzedMessage(|results|), |results|,
                                                  |allActivities|, results)));
  }

  /** The handler's loop over the recent runs: one request and one save per run,
      in order, stopping at the first exception. */
  method AnalyzeEachRun(recent: seq<Activity>, allActivities: seq<Activity>, plan: string,
                        context: string, bedrock: Request -> Reply, prefix: string,
                        clock: nat -> string, putErrors: nat -> Option<string>)
    returns (failure: Option<string>, sent: seq<Request>, saved: seq<(string, Document)>,
             results: seq<RunResult>)
    requires AllStarted(Runs(allActivities))
    ensures |saved| <= |sent| <= |recent|
    ensures sent == Requests(plan, context, recent[..|sent|])
    ensures forall k :: 0 <= k < |saved| ==>
      SavedEntry(saved[k], recent[k], bedrock(sent[k]), putErrors(k), allActivities, prefix, clock(k))
    ensures failure.None? <==> |saved| == |recent|
    ensures failure.Some? ==> |sent| == |saved| + 1 && !RunStored(bedrock, plan, context, recent, putErrors, |saved|)
    ensures failure.None? ==> results == Results(recent, prefix, clock)
  {
    sent, saved, results := [], [], [];
    var i := 0;
    while i < |recent|
      invariant 0 <= i <= |recent|
      invariant |sent| == |saved| == |results| == i
      invariant sent == Requests(plan, context, recent[..i])
      invariant forall k :: 0 <= k < i ==>
        SavedEntry(saved[k], recent[k], bedrock(sent[k]), putErrors(k), allActivities, prefix, clock(k))
      invariant results == Results(recent[..i], prefix, clock)
    {
      var request, entry := AnalyzeRun(recent[i], allActivities, plan, context, bedrock,
                                       prefix, clock(i), putErrors(i));
      ghost var sent0, saved0 := sent, saved;
      RequestsStep(plan, context, recent, i);
      sent := sent + [request];
      if entry.Failure? {
        return Some(entry.error), sent, saved, results;
      }
      SavedStep(recent, allActivities, bedrock, prefix, clock, putErrors, sent0, request, saved0, entry.value);
      saved := saved + [entry.value];
      var result := RunResult(recent[i].name, recent[i].distanceKm, entry.value.0);
      ResultsStep(recent, prefix, clock, i);
      results := results + [result];
      i := i + 1;
    }
    assert recent[..i] == recent;
    failure := None;
  }

  /** One pass of the handler's loop: the request for the run, then, when the
      model answers with text, the save of that text at `timestamp`. */
  method AnalyzeRun(run: Activity, allActivities: seq<Activity>, plan: string, context: string,
                    bedrock: Request -> Reply, prefix: string, timestamp: string,
                    putError: Option<string>)
    returns (request: Request, entry: Result<(string, Document)>)
    requires AllStarted(Runs(allActivities))
    ensures request == RunRequest(plan, context, run)
    ensures entry.Success? <==> AnalysisText(bedrock(request)).Success? && putError.None?
    ensures entry.Success? ==>
      SavedEntry(entry.value, run, bedrock(request), putError, allActivities, prefix, timestamp)
  {
    var runPrompt := FormatRunForPrompt(run);
    request := Analysis(plan, context, runPrompt, AnalysisMaxTokens);
    var analysis := AnalysisText(bedrock(request));
    if analysis.Failure? {
      return request, Failure(analysis.error);
    }
    var outputKey, doc := SaveAnalysisToS3(run, analysis.value, allActivities, prefix, timestamp, putError);
    if outputKey.Failure? {
      return request, Failure(outputKey.error);
    }
    entry := Success((outputKey.value, doc.value));
  }

  // ----- lemmas -----

  lemma RequestsStep(plan: string, context: string, recent: seq<Activity>, i: nat)
    requires i < |recent|
    ensures Requests(plan, context, recent[..i + 1])
            == Requests(plan, context, recent[..i]) + [RunRequest(plan, context, recent[i])]
  {
  }

  /** The saves of the first `|saved|` runs, extended by the save of the next. */
  lemma SavedStep(recent: seq<Activity>, allActivities: seq<Activity>, bedrock: Request -> Reply,
                  prefix: string, clock: nat -> string, putErrors: nat -> Option<string>,
                  sent: seq<Request>, request: Request, saved: seq<(string, Document)>,
                  entry: (string, Document))
    requires |sent| == |saved| < |recent|
    requires forall k :: 0 <= k < |saved| ==>
      SavedEntry(saved[k], recent[k], bedrock(sent[k]), putErrors(k), allActivities, prefix, clock(k))
    requires SavedEntry(entry, recent[|saved|], bedrock(request), putErrors(|saved|),
                        allActivities, prefix, clock(|saved|))
    ensures forall k :: 0 <= k < |saved| + 1 ==>
      SavedEntry((saved + [entry])[k], recent[k], bedrock((sent + [request])[k]), putErrors(k),
                 allActivities, prefix, clock(k))
  {
    forall k | 0 <= k < |saved| + 1
      ensures SavedEntry((saved + [entry])[k], recent[k], bedrock((sent + [request])[k]), putErrors(k),
                         allActivities, prefix, clock(k))
    {
      if k < |saved| {
        assert (saved + [entry])[k] == saved[k] && (sent + [request])[k] == sent[k];
      }
    }
  }

  lemma ResultsStep(recent: seq<Activity>, prefix: string, clock: nat -> string, i: nat)
    requires i < |recent|
    ensures Results(recent[..i + 1], prefix, clock)
            == Results(recent[..i], prefix, clock)
               + [RunResult(recent[i].name, recent[i].distanceKm, AnalysisKey(prefix, clock(i)))]
  {
  }

  /** The first `n` runs of a newest-first list are newest first and at least as
      new as every run after them. */
  lemma TopNewest(sorted: seq<Activity>, n: nat)
    requires NewestFirst(sorted) && n <= |sorted|
    ensures NewestFirst(sorted[..n])
    ensures multiset(sorted[..n]) <= multiset(sorted)
    ensures forall x, y :: x in sorted[..n] && y in multiset(sorted) - multiset(sorted[..n])
              ==> StrLe(StartKey(y), StartKey(x))
  {
    var top, rest := sorted[..n], sorted[n..];
    assert multiset(sorted) - multiset(top) == multiset(rest) by {
      assert sorted == top + rest;
    }
    forall x, y | x in top && y in multiset(rest)
      ensures StrLe(StartKey(y), StartKey(x))
    {
      TopBeforeRest(sorted, n, x, y);
    }
  }

  lemma TopBeforeRest(sorted: seq<Activity>, n: nat, x: Activity, y: Activity)
    requires NewestFirst(sorted) && n <= |sorted|
    requires x in sorted[..n] && y in sorted[n..]
    ensures StrLe(StartKey(y), StartKey(x))
  {
    var p :| 0 <= p < n && sorted[..n][p] == x;
    var q :| 0 <= q < |sorted| - n && sorted[n..][q] == y;
    assert sorted[p] == x && sorted[n + q] == y;
  }

  /** The prompt text of a run splits back into its lines when none of its texts
      holds a newline: four header lines, then the heading and one line per
      interval when there are intervals. */
  lemma RunPromptLines(a: Activity)
    requires '\n' !in ShowText(a.name) && '\n' !in ShowText(a.startTimeLocal)
    requires a.intervals.Some? ==> forall i :: 0 <= i < |a.intervals.value| ==> '\n' !in a.intervals.value[i]
    ensures SplitOn(RunPrompt(a), '\n') == RunLines(a)
    ensures |RunLines(a)| == if HasIntervals(a) then 5 + |a.intervals.value| else 4
  {
    var lines := RunLines(a);
    assert '\n' !in ShowNumber(a.distanceKm) && '\n' !in ShowNumber(a.durationMin) by {
      if a.distanceKm.Some? {
        NumberTextChars(a.distanceKm.value, '\n');
      }
      if a.durationMin.Some? {
        NumberTextChars(a.durationMin.value, '\n');
      }
    }
    forall i | 0 <= i < |lines|
      ensures '\n' !in lines[i]
    {
      if i >= 5 {
        assert lines[i] == "  - " + a.intervals.value[i - 5];
      }
    }
    SplitOnJoin(lines, '\n');
  }

  /** The context is the fixed sentence exactly when the week has no runs, and
      otherwise starts with the first run's prompt text. */
  lemma ContextOfRuns(activities: seq<Activity>)
    ensures RunsContext(activities) == NoRunsContext <==> Runs(activities) == []
    ensures Runs(activities) != [] ==>
      StartsWith(RunsContext(activities), RunPrompt(Runs(activities)[0]))
  {
    var running := Runs(activities);
    if running != [] {
      var first := RunPrompt(running[0]);
      JoinStartsWith(Prompts(running), "\n\n");
      JoinStartsWith(RunLines(running[0]), "\n");
      assert RunsContext(activities)[0] == first[0] == '#';
      assert NoRunsContext[0] == 'N';
    }
  }
}
