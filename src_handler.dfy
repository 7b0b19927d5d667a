/** The analysis function of the current layout. It fetches the thirty most
    recent activities and keeps those of the last seven days. When one of them is
    a run that started in the last twelve hours, it asks the model to render the
    week's runs as an HTML list, asks it again for a coaching note on that list
    and the training plan, and stores both in one document. The secret store,
    the fetch, the bucket, the model and the clocks are parameters. */
module SrcHandler {

  import opened Wrappers
  import opened Text
  import opened Numbers
  import opened Records
  import opened ActivityFilters
  import opened RunOrder
  import opened Storage
  import opened HandlerCommon

  const MaxListedRuns := 15
  const HtmlMaxTokens := 2048
  const AnalysisMaxTokens := 512
  const NoRecentRunsHtml := "<ul><li>No recent runs.</li></ul>"
  const NoRunsHtml := "<ul><li>No runs.</li></ul>"
  const UnavailableHtml := "<ul><li>Run list unavailable.</li></ul>"
  const Fence := "```"
  const CompleteMessage := "Coach analysis complete (last 7 days review + next 3 days look-ahead)"

  /** The five keys of a run that the HTML request sends. */
  datatype RunSummary = RunSummary(
    startTimeLocal: Option<string>,
    name: Option<string>,
    distanceKm: Option<Number>,
    durationMin: Option<Number>,
    intervals: Option<seq<string>>)

  /** A request to the model: the runs to render as HTML, or the training plan
      and the runs context to write a coaching note on; each with its token cap.
      The prompt prose around these values is fixed text. */
  datatype Request =
    | RunsHtml(runs: seq<RunSummary>, maxTokens: int)
    | Coaching(plan: string, runsContext: string, maxTokens: int)

  /** The body of the handler's response. */
  datatype Body =
    | ErrorBody(error: string)
    | NoRunsBody(message: string, runsAnalyzed: int, totalActivitiesFetched: int)
    | CompleteBody(message: string, runsAnalyzed: int, runsInContext: int,
                   totalActivitiesFetched: int, outputKey: string)

  datatype Response = Response(statusCode: int, body: Body)

  function Summary(a: Activity): RunSummary {
    RunSummary(a.startTimeLocal, a.name, a.distanceKm, a.durationMin, a.intervals)
  }

  function Summaries(runs: seq<Activity>): (r: seq<RunSummary>)
    ensures |r| == |runs|
  {
    seq(|runs|, i requires 0 <= i < |runs| => Summary(runs[i]))
  }

  /** The HTML request for a list of runs: the first fifteen of them. */
  function HtmlRequest(running: seq<Activity>): (req: Request)
    ensures req.RunsHtml? && req.maxTokens == HtmlMaxTokens
    ensures |req.runs| == if |running| < MaxListedRuns then |running| else MaxListedRuns
    ensures forall i :: 0 <= i < |req.runs| ==> req.runs[i] == Summary(running[i])
  {
    var n := if |running| < MaxListedRuns then |running| else MaxListedRuns;
    RunsHtml(Summaries(running[..n]), HtmlMaxTokens)
  }

  /** The model's reply without surrounding whitespace and, when it opens with a
      code fence, without the fence's first line and a last line that is only
      the closing fence. */
  function Unfenced(reply: string): string {
    var html := Strip(reply);
    if !StartsWith(html, Fence) then html
    else
      var lines := SplitOn(html, '\n');
      var lines := if StartsWith(lines[0], Fence) then lines[1..] else lines;
      var lines := if lines != [] && Strip(lines[|lines| - 1]) == Fence then lines[..|lines| - 1] else lines;
      Join(lines, "\n")
  }

  /** The week's runs as an HTML list: a fixed item when there are none, the
      model's unfenced reply otherwise, with fixed items when the reply is empty
      or the model answers with a client error. Any other error of the call is
      not caught and escapes. The list is never empty. */
  function FormatRunsAsHtmlBedrock(bedrock: Request -> Reply, running: seq<Activity>): (html: Result<string>)
    ensures running == [] ==> html == Success(NoRecentRunsHtml)
    ensures running != [] && bedrock(HtmlRequest(running)).ClientFailure? ==> html == Success(UnavailableHtml)
    ensures running != [] && bedrock(HtmlRequest(running)).OtherFailure? ==>
      html == Failure(bedrock(HtmlRequest(running)).message)
    ensures running != [] && bedrock(HtmlRequest(running)).Answer? ==>
      var page := Unfenced(bedrock(HtmlRequest(running)).text.GetOr(""));
      html == Success(if page != "" then page else NoRunsHtml)
    ensures html.Success? ==> html.value != ""
  {
    if running == [] then Success(NoRecentRunsHtml)
    else
      match bedrock(HtmlRequest(running))
      case ClientFailure(_) => Success(UnavailableHtml)
      case OtherFailure(m) => Failure(m)
      case Answer(text) =>
        var page := Unfenced(text.GetOr(""));
        Success(if page != "" then page else NoRunsHtml)
  }

  /** What one save writes: the timestamp, the trigger run, every run of the
      week newest first (a stable reordering of `running`, so runs with equal
      start times keep their order), the note under both `analysis` and
      `suggestion`, the number of runs, and the HTML list only when it is
      non-empty. */
  ghost predicate StoredDocument(d: Document, triggerRun: Activity, analysis: string, running: seq<Activity>,
                                 recentRunsHtml: Option<string>, timestamp: string) {
    && d.timestamp == Some(timestamp)
    && d.analyzedRun == Some(triggerRun)
    && d.recentRuns.Some?
    && NewestFirst(d.recentRuns.value)
    && multiset(d.recentRuns.value) == multiset(running)
    && SameTies(d.recentRuns.value, running)
    && d.analysis == Some(analysis) && d.suggestion == Some(analysis)
    && d.contextActivitiesCount == Some(|running|)
    && d.recentRunsHtml == (if Truthy(recentRunsHtml) then recentRunsHtml else None)
  }

  /** Stores the analysis document under `prefix + timestamp + "_analysis.json"`
      and returns that key. The document carries the week's runs newest first (a
      stable reordering of the running activities), the note under both
      `analysis` and `suggestion`, the number of runs, and the HTML list only when
      it is non-empty. `doc` is what was put, `putError` the bucket's error. */
  method SaveAnalysisToS3(triggerRun: Activity, analysis: string, allActivities: seq<Activity>,
                          recentRunsHtml: Option<string>, prefix: string, timestamp: string,
                          putError: Option<string>)
    returns (key: Result<string>, doc: Option<Document>)
    ensures SortRaises(Runs(allActivities)) ==> key.Failure? && doc == None
    ensures !SortRaises(Runs(allActivities)) ==> doc.Some?
    ensures doc.Some? ==> key == if putError.Some? then Failure(putError.value)
                                 else Success(AnalysisKey(prefix, timestamp))
    ensures doc.Some? ==>
      StoredDocument(doc.value, triggerRun, analysis, Runs(allActivities), recentRunsHtml, timestamp)
  {
    var objectKey := AnalysisKey(prefix, timestamp);
    var running := Runs(allActivities);
    if SortRaises(running) {
      return Failure("'<' not supported between instances of 'NoneType' and 'str'"), None;
    }
    var a := new Activity[|running|](i requires 0 <= i < |running| => running[i]);
    assert a[..] == running;
    SortNewestFirst(a);
    var sorted := a[..];
    var html := if Truthy(recentRunsHtml) then recentRunsHtml else None;
    var output := Document(Some(timestamp), Some(triggerRun), Some(sorted), Some(analysis),
                           Some(analysis), Some(|sorted|), html);
    doc := Some(output);
    if putError.Some? {
      return Failure(putError.value), doc;
    }
    key := Success(objectKey);
  }

  /** What the handler does once the plan is read: `sent` is the HTML request
      for the week's runs, and when that does not raise, the coaching request on
      the list and the plan; the document stored is what one save writes for
      the newest recent run, the note and the list; the put error, if any,
      escapes. */
  ghost predicate CoachingOutcome(raw: seq<Activity>, recent: seq<Activity>, running: seq<Activity>, plan: string,
                                  bedrock: Request -> Reply, prefix: string, timestamp: string,
                                  putError: Option<string>,
                                  outcome: Result<Response>, sent: seq<Request>, doc: Option<Document>)
    requires recent != []
  {
    var html := FormatRunsAsHtmlBedrock(bedrock, running);
    && running != []
    && (html.Failure? ==> outcome == Failure(html.error) && sent == [HtmlRequest(running)] && doc == None)
    && (html.Success? ==>
          var request := Coaching(plan, html.value, AnalysisMaxTokens);
          && sent == [HtmlRequest(running), request]
          && (AnalysisText(bedrock(request)).Failure? ==>
                outcome == Failure(AnalysisText(bedrock(request)).error) && doc == None)
          && (AnalysisText(bedrock(request)).Success? ==>
                && doc.Some?
                && StoredDocument(doc.value, recent[0], AnalysisText(bedrock(request)).value, running,
                                  Some(html.value), timestamp)
                && doc.value.recentRunsHtml == Some(html.value)
                && outcome == if putError.Some? then Failure(putError.value)
                              else Success(Response(200, CompleteBody(CompleteMessage, |recent|, |running|,
                                                                      |raw|, AnalysisKey(prefix, timestamp))))))
  }

  /** What the handler does with the fetched activities `raw`: without a run in
      the last twelve hours, a response saying so; when the plan cannot be read,
      its error; otherwise the coaching outcome for the recent runs and the
      week's running activities. */
  ghost predicate ActivitiesOutcome(raw: seq<Activity>, parse: string -> Option<int>, now: int, plan: PlanRead,
                              bedrock: Request -> Reply, prefix: string, timestamp: string,
                              putError: Option<string>,
                              outcome: Result<Response>, sent: seq<Request>, doc: Option<Document>)
  {
    var recent := RunsInWindow(raw, parse, now - TriggerHours * SecondsPerHour);
    var running := Runs(InWindow(raw, parse, now - ContextDays * SecondsPerDay));
    && (recent == [] ==>
          outcome == Success(Response(200, NoRunsBody(NoRunsMessage, 0, |raw|)))
          && sent == [] && doc == None)
    && (recent != [] && TrainingPlan(plan).Failure? ==>
          outcome == Failure(TrainingPlan(plan).error) && sent == [] && doc == None)
    && (recent != [] && TrainingPlan(plan).Success? ==>
          CoachingOutcome(raw, recent, running, TrainingPlan(plan).value, bedrock, prefix, timestamp,
                          putError, outcome, sent, doc))
  }

  /** The handler. `secret` is what reading the credentials gives, `fetched` what
      the fetcher returns or raises for the thirty most recent activities,
      `parse` and `now` the start-time parser and the current time, `plan` the
      training plan read, `bedrock` the model. It returns the response or the
      exception that escapes, the requests sent to the model in order, and the
      document stored, if any. */
  method LambdaHandler(secret: Result<(string, string)>, fetched: Result<Fetched>,
                       parse: string -> Option<int>, now: int, plan: PlanRead,
                       bedrock: Request -> Reply, prefix: string, timestamp: string,
                       putError: Option<string>)
    returns (outcome: Result<Response>, sent: seq<Request>, doc: Option<Document>)
    ensures secret.Failure? ==> outcome == Failure(secret.error) && sent == [] && doc == None
    ensures secret.Success? && fetched.Failure? ==>
      outcome == Failure(fetched.error) && sent == [] && doc == None
    ensures secret.Success? && fetched.Success? && fetched.value.ErrorObject? ==>
      outcome == Success(Response(500, ErrorBody(fetched.value.error))) && sent == [] && doc == None
    ensures secret.Success? && fetched == Success(OtherJson) ==>
      outcome == Success(Response(500, ErrorBody(UnexpectedFormat))) && sent == [] && doc == None
    ensures secret.Success? && fetched.Success? && fetched.value.ActivityList? ==>
      ActivitiesOutcome(fetched.value.records, parse, now, plan, bedrock, prefix, timestamp, putError,
                        outcome, sent, doc)
  {
    sent := [];
    doc := None;
    if secret.Failure? {
      return Failure(secret.error), sent, doc;
    }
    if fetched.Failure? {
      return Failure(fetched.error), sent, doc;
    }
    var allActivitiesRaw := fetched.value;
    if allActivitiesRaw.ErrorObject? {
      return Success(Response(500, ErrorBody(allActivitiesRaw.error))), sent, doc;
    }
    if !allActivitiesRaw.ActivityList? {
      return Success(Response(500, ErrorBody(UnexpectedFormat))), sent, doc;
    }
    outcome, sent, doc := HandleActivities(allActivitiesRaw.records, parse, now, plan, bedrock,
                                           prefix, timestamp, putError);
  }

  /** The handler from the fetched activities on: the two time windows, then the
      plan and the two requests. */
  method HandleActivities(raw: seq<Activity>, parse: string -> Option<int>, now: int, plan: PlanRead,
                          bedrock: Request -> Reply, prefix: string, timestamp: string,
                          putError: Option<string>)
    returns (outcome: Result<Response>, sent: seq<Request>, doc: Option<Document>)
    ensures ActivitiesOutcome(raw, parse, now, plan, bedrock, prefix, timestamp, putError, outcome, sent, doc)
  {
    sent := [];
    doc := None;
    var allActivities := FilterActivitiesByDate(raw, parse, now, ContextDays);
    var recentRuns := FilterRecentRuns(allActivities, parse, now, TriggerHours);
    RecentRunsOfWeek(raw, parse, now);
    if recentRuns == [] {
      return Success(Response(200, NoRunsBody(NoRunsMessage, 0, |raw|))), sent, doc;
    }
    var trainingPlan := TrainingPlan(plan);
    if trainingPlan.Failure? {
      return Failure(trainingPlan.error), sent, doc;
    }
    TriggerRunsAreRuns(allActivities, parse, now - TriggerHours * SecondsPerHour, recentRuns[0]);
    InWindowStarted(raw, parse, now - ContextDays * SecondsPerDay);
    RunsStarted(allActivities);
    outcome, sent, doc := Coach(raw, recentRuns, allActivities, trainingPlan.value, bedrock,
                                prefix, timestamp, putError);
  }

  /** The two requests to the model and the save, for recent runs of a week of
      activities whose start times are all set. */
  method Coach(raw: seq<Activity>, recentRuns: seq<Activity>, allActivities: seq<Activity>, plan: string,
               bedrock: Request -> Reply, prefix: string, timestamp: string, putError: Option<string>)
    returns (outcome: Result<Response>, sent: seq<Request>, doc: Option<Document>)
    requires recentRuns != [] && recentRuns[0] in Runs(allActivities)
    requires AllStarted(Runs(allActivities))
    ensures CoachingOutcome(raw, recentRuns, Runs(allActivities), plan, bedrock, prefix, timestamp,
                            putError, outcome, sent, doc)
  {
    doc := None;
    var runningActivities7d := Runs(allActivities);
    sent := [HtmlRequest(runningActivities7d)];
    var html := FormatRunsAsHtmlBedrock(bedrock, runningActivities7d);
    if html.Failure? {
      return Failure(html.error), sent, doc;
    }
    var recentRunsHtml := html.value;
    var request := Coaching(plan, recentRunsHtml, AnalysisMaxTokens);
    sent := sent + [request];
    var analysis := AnalysisText(bedrock(request));
    if analysis.Failure? {
      return Failure(analysis.error), sent, doc;
    }
    var triggerRun := recentRuns[0];
    var outputKey;
    outputKey, doc := SaveAnalysisToS3(triggerRun, analysis.value, allActivities, Some(recentRunsHtml),
                                       prefix, timestamp, putError);
    if outputKey.Failure? {
      return Failure(outputKey.error), sent, doc;
    }
    outcome := Success(Response(200, CompleteBody(CompleteMessage, |recentRuns|, |runningActivities7d|,
                                                  |raw|, outputKey.value)));
  }

  // ----- lemmas -----

  /** A reply that is one fenced block, with an info string on the opening line,
      comes back as the block's body. */
  lemma FenceRoundTrip(info: string, body: string)
    requires '\n' !in info
    ensures Unfenced(Fence + info + "\n" + body + "\n" + Fence) == body
  {
    var parts := SplitOn(body, '\n');
    FencedLines(info, body);
    assert (Fence + info)[..3] == Fence;
    StripUnchanged(Fence);
    assert ([Fence + info] + parts + [Fence])[1..] == parts + [Fence];
    assert (parts + [Fence])[..|parts|] == parts;
    JoinSplitOn(body, '\n');
  }

  /** A fenced block is already stripped, and its lines are the opening line,
      the lines of the body and the closing fence. */
  lemma FencedLines(info: string, body: string)
    requires '\n' !in info
    ensures var text := Fence + info + "\n" + body + "\n" + Fence;
      && Strip(text) == text && StartsWith(text, Fence)
      && SplitOn(text, '\n') == [Fence + info] + SplitOn(body, '\n') + [Fence]
  {
    var text := Fence + info + "\n" + body + "\n" + Fence;
    var first := Fence + info;
    var rest := body + "\n" + Fence;
    assert text[0] == '`' && text[|text| - 1] == '`';
    StripUnchanged(text);
    assert text[..3] == Fence;
    assert text == first + ['\n'] + rest;
    SplitOnCons(first, '\n', rest);
    assert rest == body + ['\n'] + Fence;
    SplitOnSnoc(body, '\n', Fence);
  }
}
