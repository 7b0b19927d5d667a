# Garmin run analyser: a Dafny model of its data-shaping core

The system has three parts.

- It fetches a runner's recent Garmin Connect activities, with the lap rows of each run taken from its TCX file.
- On each invocation an analysis function checks whether a run started in the last twelve hours. If one did, it asks a language model for a coaching note and stores it in an S3 bucket as JSON documents under `run-analysis/`, one document per analysis. The function under `lambda/` writes one document per recent run. The one under `src/lambda/` writes a single document for the first recent run.
- Two small web apps read the newest document back and render the recent runs and the note as HTML.

A separate scheduler pauses the web service at 18:00 and resumes it at 08:00, UK time.

The model covers the deterministic logic between the external services, one Dafny module per concern:

- `LapFormat`: the pace, duration and lap-row helpers that both Garmin fetchers define identically, and the meaning of a parsed TCX file as its list of lap rows.
- `Records`: the seven-key record of an activity, the identifier fallback chain, and which activities get a TCX download.
- `ScratchDir`: the `.fitcache` scratch directory. This covers POSIX `os.path.join`, `normpath` and `basename`, the name guard, and the wipe as a class over a directory map.
- `GarminActivities` and `GetFromGarmin`: the two fetchers.
  - Their loops are methods proved equal to the shared specifications in `LapFormat` and `Records`.
  - Each returns the sequence of calls it makes on the service, so logging in, listing, downloading, wiping and logging out can be compared between the two.
  - `GetFromGarmin.RowList` is the list that `_add_row` appends to.
- `ActivityFilters`: the seven-day context window and the twelve-hour trigger window. Both handlers define them identically.
- `RunOrder`: Python's string order, and the stable newest-first sort of the stored runs. The sort is an insertion sort in place on an array.
- `Storage`, `HandlerCommon`: the stored document, its key, the choice of the latest object, the training-plan read and the model's reply.
- `LambdaHandler` (`lambda/garmin_analyzer/handler.py`): prompt text, the per-run loop of request and save, and the three newest runs in each document.
- `SrcHandler` (`src/lambda/garmin_analyzer/handler.py`): the HTML request with its code-fence stripping, one coaching request, and one document holding every run of the week.
- `App` (`app.py`) and `WebApp` (`src/web_app/app.py`): the two readers.
- `Scheduler`: the hour rule.

The helper modules are `Wrappers` (optional values, Python truthiness), `Text` (Python string operations on `seq<char>`) and `Numbers` (`int()`, `round`, `% 1` and `str()` of numbers).

Modelling choices:

- External services are parameters. This covers Garmin Connect, Secrets Manager, S3, Bedrock, the clocks and `strptime`.
- Each handler returns what it sent to the model and what it stored, next to its response or the exception that escapes.
- Python floats are reals. `int()` truncates toward zero. `round` goes half to even. A value stored after `round(x, k)` is rendered the way Python's `repr` renders it.

Two places where the sources do not agree with each other. In both, the model follows the code:

- `tests/web_app/test_app.py:15` and `:20` expect `1:00` and `1:30` for runs of 60 and 90 minutes in the fallback list. `src/web_app/app.py:66-70` prints `int(d)` minutes and `int(d % 1 * 60)` seconds, so it gives `60:00` and `90:00`. `WebApp.WholeMinutesAsWritten` states what the code gives. The rest of the model keeps the code's minutes-and-seconds reading.
- `app.py:85` shows "Untitled Run" for a record whose name is empty or null. The fetchers fall back to `activityNameOriginal` (`lambda/garmin_analyzer/garmin_activities.py:250`). The lambda prompt (`lambda/garmin_analyzer/handler.py:134`) shows `None` for a null name, because the record always carries the key and the `.get` default never applies.

## Model

| member | source | states |
|---|---|---|
| LapFormat.CalculatePace | lambda/garmin_analyzer/garmin_activities.py:41-47 | A pace exists exactly when distance and duration are both numbers and both strictly positive. |
| LapFormat.PaceCoversDistance | lambda/garmin_analyzer/garmin_activities.py:41-47 | For positive inputs the pace is positive. Pace times kilometres equals the duration in minutes. |
| LapFormat.RowPace | lambda/garmin_analyzer/garmin_activities.py:68-72 | A positive speed always yields a pace. Otherwise the row's pace is the distance-and-time pace. |
| LapFormat.PaceFromSpeed | lambda/garmin_analyzer/garmin_activities.py:69-70 | The pace from a positive speed covers one kilometre at that speed: pace × speed × 60 = 1000. |
| LapFormat.PaceSourcesAgree | src/lambda/garmin_analyzer/get_from_garmin.py:44-48 | When the speed is distance over time, both branches of the pace choice give the same pace. |
| LapFormat.FormatPace | lambda/garmin_analyzer/garmin_activities.py:32-38 | No text exactly when there is no pace. |
| LapFormat.PaceParts | lambda/garmin_analyzer/garmin_activities.py:36-37 | The shown seconds lie in 0..60. Minutes × 60 + seconds is the pace in seconds, rounded half to even. |
| LapFormat.PaceShowsSixtySeconds | lambda/garmin_analyzer/garmin_activities.py:37 | A pace of 5.999 shows as `5:60 min/km`: rounded seconds are not carried into the minutes. |
| LapFormat.Hms | lambda/garmin_analyzer/garmin_activities.py:55-56 | The two floor divmods give minutes and seconds below 60 that add back up to the total. Hours are positive exactly from 3600 seconds on. |
| LapFormat.FormatDuration | lambda/garmin_analyzer/garmin_activities.py:50-57 | The text is `?` exactly when the duration is not a number. |
| LapFormat.FormatDurationRoundTrip | lambda/garmin_analyzer/garmin_activities.py:50-57 | The text reads back as the rounded number of seconds. It has three fields (`H:MM:SS`) exactly when that is at least an hour. |
| LapFormat.ClockRoundTrip | src/lambda/garmin_analyzer/get_from_garmin.py:37-40 | A clock text reads back as its seconds. It has an hours field exactly from 3600 seconds on. Every field after the first has two digits. |
| LapFormat.KmText | lambda/garmin_analyzer/garmin_activities.py:74 | The distance text is `None` exactly when the distance is not a number. |
| LapFormat.HrText | lambda/garmin_analyzer/garmin_activities.py:77 | The heart-rate text is `?` exactly when there is no heart rate. |
| LapFormat.IntervalFields | lambda/garmin_analyzer/garmin_activities.py:60-79 | The row keeps the label. Distance shows `None` exactly without a distance. Duration, pace and heart rate each show `?` exactly when missing. |
| LapFormat.LapRows | lambda/garmin_analyzer/garmin_activities.py:152-163 | One row per lap. |
| LapFormat.LapRowsAt | lambda/garmin_analyzer/garmin_activities.py:152-163 | Row `i` is the row of lap `i`, so the rows follow document order. |
| LapFormat.TcxIntervals | lambda/garmin_analyzer/garmin_activities.py:145-168 | Rows exist exactly for a parsed file with at least one lap whose numbers all parse. They are then the laps' rows in document order, never an empty list. |
| LapFormat.EmptyLapRow | lambda/garmin_analyzer/garmin_activities.py:153-162 | A lap without numbers gives the template row with `None` and `?` placeholders. Its label defaults to `lap`. |
| GarminActivities.ParseTcxIntervals | lambda/garmin_analyzer/garmin_activities.py:145-168 | The loop over the laps returns exactly `TcxIntervals` of the document. |
| GarminActivities.GetRecentGarminActivities | lambda/garmin_analyzer/garmin_activities.py:201-299 | Missing credentials: an error object and no call. Failed login: its error object after the login. Failed listing: its error object, with the wipe before, then the wipe and the logout. Otherwise: one record per listed activity, and calls login, wipe, list, downloads, wipe, logout. |
| GarminActivities.RecordsOf | lambda/garmin_analyzer/garmin_activities.py:247-291 | The records are `NormaliseAll` of the listing, in order. The downloads are one per run with a truthy identifier. |
| GarminActivities.ActivityRecord | lambda/garmin_analyzer/garmin_activities.py:249-289 | One activity's record is `Normalise` of it. It is downloaded exactly when `WantsIntervals` holds. |
| GetFromGarmin.RowList.constructor | src/lambda/garmin_analyzer/get_from_garmin.py:119 | The row list starts empty. |
| GetFromGarmin.RowList.AddRow | src/lambda/garmin_analyzer/get_from_garmin.py:43-59 | Appends exactly one row, the shared `IntervalRow`, and leaves the earlier rows unchanged. |
| GetFromGarmin.IntervalsFromTcxPath | src/lambda/garmin_analyzer/get_from_garmin.py:115-137 | Returns exactly `TcxIntervals`, so both fetchers parse laps alike. |
| GetFromGarmin.GetRecentGarminActivities | src/lambda/garmin_analyzer/get_from_garmin.py:169-245 | Missing credentials: an error object. A login or listing error escapes with no wipe and no logout. Otherwise: the same records as the other fetcher, with the first wipe after the listing. |
| GetFromGarmin.RecentRecords | src/lambda/garmin_analyzer/get_from_garmin.py:188-237 | The records are `NormaliseAll` of the listing. The downloads are `Downloads` of it. |
| GetFromGarmin.ActivityRecord | src/lambda/garmin_analyzer/get_from_garmin.py:191-234 | One activity's record is `Normalise` of it, with the same download rule as the other fetcher. |
| Records.NormaliseAll | lambda/garmin_analyzer/garmin_activities.py:247-291 | One record per activity, in listing order. |
| Records.NormaliseFields | lambda/garmin_analyzer/garmin_activities.py:250-289 | Identifier: the fallback chain. Start time and type: as listed. Distance and duration: present exactly when listed, to two and one decimals, within half a unit. Name: falls back when empty. Intervals: only for runs with a truthy identifier, never empty. |
| Records.ChooseIdTruthy | lambda/garmin_analyzer/garmin_activities.py:253-257 | The chosen identifier is truthy exactly when one of the three candidates is. |
| Records.Downloads | lambda/garmin_analyzer/garmin_activities.py:273-274 | At most one download per activity, and every call is a TCX download. |
| Records.DownloadsAreRuns | lambda/garmin_analyzer/garmin_activities.py:271-274 | The TCX file of an identifier is fetched exactly when some listed run with a truthy identifier has it. |
| Records.DownloadCount | lambda/garmin_analyzer/garmin_activities.py:271-274 | The number of downloads is the number of such runs. |
| ScratchDir.Basename | lambda/garmin_analyzer/garmin_activities.py:181 | A base name has no `/`. |
| ScratchDir.WipeEffect | lambda/garmin_analyzer/garmin_activities.py:171-198 | A refused path changes nothing. A missing directory is created empty. Otherwise only the entries whose removal fails stay, and every directory below a removed entry goes with it, as with `shutil.rmtree`. Every directory that is kept, other than the scratch directory, is unchanged. |
| ScratchDir.WipeRemovesSubtree | lambda/garmin_analyzer/garmin_activities.py:190-196 | A subdirectory of the scratch directory is removed with everything in it, and the scratch directory stays, empty. |
| ScratchDir.ScratchFs.Wipe | lambda/garmin_analyzer/garmin_activities.py:171-198 | The entry-by-entry loop leaves the directory map as `WipeEffect` says. |
| ScratchDir.WipeIdempotent | src/lambda/garmin_analyzer/get_from_garmin.py:140-165 | Wiping twice, as both fetchers do, is wiping once. |
| ScratchDir.CacheDirMayBeWiped | lambda/garmin_analyzer/garmin_activities.py:234-236 | `.fitcache` joined to any cache root passes the guard. |
| ScratchDir.MayWipeByComponents | lambda/garmin_analyzer/garmin_activities.py:181-182 | For a non-empty path, the guard passes exactly when the last normalised component is `.fitcache`. |
| ScratchDir.GuardRefusesRoot | lambda/garmin_analyzer/garmin_activities.py:177-184 | The empty path and `/` are refused. |
| ScratchDir.GuardRefusesOtherName | src/lambda/garmin_analyzer/get_from_garmin.py:148-151 | `/tmp` is refused. |
| ScratchDir.TrailingSlashIgnored | lambda/garmin_analyzer/garmin_activities.py:181 | A trailing slash does not change the guard's decision. |
| ScratchDir.ParentRefused | lambda/garmin_analyzer/garmin_activities.py:181 | `/d/.fitcache/..` is refused, since `normpath` resolves the `..`. |
| ActivityFilters.FilterActivitiesByDate | lambda/garmin_analyzer/handler.py:75-98 | The loop returns `InWindow` with cutoff `now - days` in seconds. Missing, empty or unparseable start times are skipped. |
| ActivityFilters.FilterRecentRuns | src/lambda/garmin_analyzer/handler.py:80-98 | The loop returns `RunsInWindow` with cutoff `now - hours` in seconds. |
| ActivityFilters.InWindowSubsequence | lambda/garmin_analyzer/handler.py:75-98 | The context window is a subsequence of its input: order kept, nothing added. |
| ActivityFilters.RunsInWindowSubsequence | lambda/garmin_analyzer/handler.py:101-128 | The trigger window is a subsequence of its input. |
| ActivityFilters.InWindowMembers | src/lambda/garmin_analyzer/handler.py:61-77 | An activity is kept exactly when it is in the input and its parsed start is at or after the cutoff. |
| ActivityFilters.RunsInWindowMembers | lambda/garmin_analyzer/handler.py:101-128 | An activity is kept exactly when it is a run of the input whose parsed start is at or after the cutoff. |
| ActivityFilters.TriggerWithinContext | lambda/garmin_analyzer/handler.py:298-302 | Taking the trigger window of the context window gives the trigger window of the whole fetch, for any earlier context cutoff. |
| ActivityFilters.BoundaryInclusive | lambda/garmin_analyzer/handler.py:95 | A start exactly at the cutoff is kept. One second earlier is dropped. |
| ActivityFilters.Runs | lambda/garmin_analyzer/handler.py:151 | Every selected activity is a run, and there are no more than in the input. |
| ActivityFilters.RunsMembers | lambda/garmin_analyzer/handler.py:229 | The selected activities are exactly the runs of the list. |
| ActivityFilters.InWindowStarted | lambda/garmin_analyzer/handler.py:82-84 | Every activity the context window keeps has a start time, so the later sort cannot raise. |
| ActivityFilters.RunsStarted | lambda/garmin_analyzer/handler.py:229 | Selecting runs keeps that property. |
| ActivityFilters.TriggerRunsAreRuns | src/lambda/garmin_analyzer/handler.py:309-319 | The trigger run is one of the week's running activities. |
| RunOrder.SortNewestFirst | lambda/garmin_analyzer/handler.py:229-233 | The array ends newest first by start-time text. It is a permutation of its contents. Runs with equal start times keep their input order (stability). |
| RunOrder.InsertNewest | lambda/garmin_analyzer/handler.py:230-233 | One insertion step: the first `i + 1` places are newest first, and it is a stable permutation. |
| RunOrder.SwapDown | lambda/garmin_analyzer/handler.py:230-233 | Swapping neighbours with different start times is a permutation that keeps every tie group in order. |
| RunOrder.StrLeTotal | lambda/garmin_analyzer/handler.py:231 | Python's string order is total. |
| RunOrder.StrLeTrans | lambda/garmin_analyzer/handler.py:231 | Python's string order is transitive. |
| RunOrder.StrLeAntisym | lambda/garmin_analyzer/handler.py:231 | Python's string order is antisymmetric. |
| RunOrder.NewestFirstHead | src/lambda/garmin_analyzer/handler.py:236-239 | The first run of a newest-first list is at least as new as every run in it. |
| Storage.AnalysisKey | lambda/garmin_analyzer/handler.py:225-226 | The key is the prefix, then the timestamp, then `_analysis.json`. |
| Storage.LatestIndex | src/web_app/app.py:39 | The position of an object with the greatest modification time, the first such in the listing. |
| Storage.LatestIndexUnique | app.py:47-54 | Those two properties determine the position, whether it is chosen by `max` or by a stable descending sort. |
| HandlerCommon.TrainingPlan | lambda/garmin_analyzer/handler.py:61-72 | The plan text; the default sentence for a missing object; any other error propagates. |
| HandlerCommon.RecentRunsOfWeek | lambda/garmin_analyzer/handler.py:296-302 | The recent runs taken from the week's activities are the twelve-hour runs of the whole fetch. |
| HandlerCommon.AnalysisText | lambda/garmin_analyzer/handler.py:213-220 | A note exists exactly when the model answers and its first content block has text. The note is that text. |
| LambdaHandler.HeaderLines | lambda/garmin_analyzer/handler.py:133-137 | Every run has exactly four header lines. |
| LambdaHandler.FormatRunForPrompt | lambda/garmin_analyzer/handler.py:131-146 | The appending loop builds exactly `RunPrompt`. |
| LambdaHandler.RunPromptLines | lambda/garmin_analyzer/handler.py:131-146 | The prompt text splits back into its lines: four header lines, plus the heading and one line per interval exactly when intervals are non-empty. |
| LambdaHandler.Sections | lambda/garmin_analyzer/handler.py:156-158 | One section per running activity, in order. |
| LambdaHandler.FormatAllRunsForContext | lambda/garmin_analyzer/handler.py:149-160 | The context is `RunsContext`: the sections joined by blank lines. |
| LambdaHandler.ContextOfRuns | lambda/garmin_analyzer/handler.py:149-160 | The context is the fixed sentence exactly when the week has no runs. Otherwise it starts with the first run's text. |
| LambdaHandler.TopNewest | lambda/garmin_analyzer/handler.py:234 | The first `n` of a newest-first list are newest first, a sub-multiset, and no older than anything left out. |
| LambdaHandler.SaveAnalysisToS3 | lambda/garmin_analyzer/handler.py:223-255 | The document holds the run, the note and the number of runs. It holds the three newest runs: a newest-first sub-multiset no older than any run left out. These are the head of a stable newest-first permutation of the runs, so among runs with equal start times the earlier ones in the input are kept, in input order. The key is the prefix key, or the put error escapes. |
| LambdaHandler.AnalyzeRun | lambda/garmin_analyzer/handler.py:330-339 | One loop pass: the request for the run. A save exactly when the reply has text and the put succeeds. |
| LambdaHandler.AnalyzeEachRun | lambda/garmin_analyzer/handler.py:324-345 | One request per recent run, in order, each followed by its save. The first failure stops the loop before its save. Without a failure, the results hold one entry per run. |
| LambdaHandler.HandleActivities | lambda/garmin_analyzer/handler.py:297-355 | No recent run: 200 and no request. Unreadable plan: its error. Otherwise the loop, with `Analyzed n run(s)`, where n is the number of recent runs. |
| LambdaHandler.LambdaHandler | lambda/garmin_analyzer/handler.py:258-355 | A missing secret ARN or bucket raises before any work. So does a failed secret read. An error object or other JSON gives 500. A list continues as `HandleActivities`. |
| SrcHandler.HtmlRequest | src/lambda/garmin_analyzer/handler.py:121-130 | At most fifteen runs, the first ones, with their five keys and a cap of 2048 tokens. |
| SrcHandler.FormatRunsAsHtmlBedrock | src/lambda/garmin_analyzer/handler.py:116-164 | No runs: the fixed item. A client error: the unavailable item. Any other error of the call escapes with its message. Otherwise: the unfenced reply, or the no-runs item when that is empty. A list that is returned is never empty. |
| SrcHandler.FenceRoundTrip | src/lambda/garmin_analyzer/handler.py:153-160 | A reply that is one fenced block comes back as the block's body. |
| SrcHandler.FencedLines | src/lambda/garmin_analyzer/handler.py:153-158 | A fenced block is unchanged by `strip`. Its lines are the opening line, the body's lines and the closing fence. |
| SrcHandler.SaveAnalysisToS3 | src/lambda/garmin_analyzer/handler.py:230-263 | The document holds every run of the week, newest first, as a stable permutation. The count equals its length. The suggestion equals the analysis. The HTML is present only when non-empty. |
| SrcHandler.Coach | src/lambda/garmin_analyzer/handler.py:308-333 | The HTML request first. When it raises, that error escapes with nothing else sent or stored. Otherwise the coaching request on the list and the plan follows. At most one document is saved: it names the first recent run and holds the note, the list, and every run of the week newest first as a stable permutation. |
| SrcHandler.HandleActivities | src/lambda/garmin_analyzer/handler.py:293-333 | No recent run: 200 with the fetched count and no request. Unreadable plan: its error. Otherwise `Coach`. |
| SrcHandler.LambdaHandler | src/lambda/garmin_analyzer/handler.py:266-333 | A failed secret read or fetch escapes. An error object or other JSON gives 500. Otherwise `HandleActivities`. |
| App.GetLatestAnalysis | app.py:28-69 | None when listing fails or finds nothing. A document returned is one the store returned. |
| App.LatestAnalysisIsNewest | app.py:46-61 | The document read is the one under the latest object's key, or none when that read fails. |
| App.FormatRecentRunsHtml | app.py:72-125 | The nested loops build exactly `RecentRunsHtml`. None for a falsy document. A fixed paragraph without runs. Otherwise the first three runs, or the error of a date that raises. |
| App.RunHtmlParts | app.py:84-121 | One run's item: the escaped summary, then its first six intervals in a nested list. |
| App.RunSummaryText | app.py:85-108 | The summary line of a run, or the error its date raises. |
| App.IntervalListItems | app.py:114-119 | One escaped item per shown interval, in order. |
| App.DateIsFirstWord | app.py:91 | A start time with a space shows its first word. |
| App.DateFails | app.py:91 | The date raises exactly for a start time of whitespace that holds a space. |
| App.MinSecBounds | app.py:100-103 | Truncated minutes and seconds: seconds in 0..59, the pace rounded down to the second. |
| App.PaceShown | app.py:94-103 | A pace shows exactly when distance and duration are numbers above zero, as `M:SS/km`. |
| App.RunsPartsFailure | app.py:84-109 | Rendering the runs raises exactly when one of their dates raises. |
| App.ShowsThreeRuns | app.py:84 | Runs after the third do not change the panel. |
| App.ShowsSixIntervals | app.py:115 | Intervals after the sixth do not change a run's item. |
| App.TruncateToWords | app.py:128-133 | A text with at most the maximum number of words is returned unchanged. |
| App.TruncatedWords | app.py:130-133 | A longer text becomes exactly its first `max` words, then `...`. |
| App.TruncateWordCount | app.py:128-133 | The result has the text's word count, capped at the maximum. |
| App.TruncateIdempotent | app.py:128-133 | Truncating twice is truncating once. |
| App.FormatAnalysisHtml | app.py:136-171 | Returns exactly `AnalysisHtml`: none without a document or a note. Otherwise the note's formatted lines joined by newlines. |
| App.FormatLines | app.py:152-171 | The loop with its blank flag returns exactly `FormattedLines` of the stripped lines. |
| App.NoDoubleBreak | app.py:159-164 | Two breaks never follow each other. |
| App.ParagraphsOfLines | app.py:156-169 | Without the breaks, the output is one paragraph per non-empty line, in order. |
| App.BreakIffBlankRun | app.py:156-164 | The output has a break exactly when some run of empty lines starts. |
| App.BreakIffBlankLine | app.py:152-164 | The output has a break exactly when some stripped line of the note is empty. |
| App.Index | app.py:330-369 | An error exactly when formatting the runs raises, and then no panels. Otherwise both panels of the latest document. |
| WebApp.Suggestion | src/web_app/app.py:48-53 | The stored suggestion when non-empty, else the analysis, else `No suggestion yet.` |
| WebApp.GetLatestAnalysisFromS3 | src/web_app/app.py:22-53 | Errors for a missing bucket and a failed listing. A client error of the listing is wrapped as "Failed to list S3"; any other error keeps its own message. None for no objects. A failed read of the latest key raises with that key. Otherwise the latest document's runs, suggestion and HTML. |
| WebApp.LatestFromS3IsNewest | src/web_app/app.py:39-53 | The object read is the latest one of the listing. A failed read raises with its key. |
| WebApp.ConfigurationErrorsAre500 | src/web_app/app.py:27-91 | A missing bucket and a client error of the listing both mention S3, so the page shows them with status 500. |
| WebApp.Homepage | src/web_app/app.py:81-111 | Status, template variables and suggestion for each branch. Stored HTML is used verbatim when non-empty, else the fallback list. An undated shown run raises `IndexError`. |
| WebApp.FormatRunsFallback | src/web_app/app.py:56-73 | Builds exactly `FallbackHtml`: the fixed item without runs, else one list of the first fifteen runs' items. |
| WebApp.ItemParts | src/web_app/app.py:60-72 | The opening tag, then one item per shown run, in order. |
| WebApp.FallbackItemsAt | src/web_app/app.py:61-71 | Item `i` is the item of run `i`, so the items follow the runs' order. |
| WebApp.FormatFallbackItem | src/web_app/app.py:61-71 | One run's item: date, escaped name, distance, duration, then `avg HR N/A`. |
| WebApp.FallbackListShape | src/web_app/app.py:58-73 | One `<ul>` holding one item per run, at most fifteen, in order. |
| WebApp.FallbackShowsFifteen | src/web_app/app.py:61 | Runs after the fifteenth do not change the list. |
| WebApp.FallbackShowsDate | src/web_app/app.py:62 | The item starts with the date part of a `date time` start time. |
| WebApp.EscapePlain | src/web_app/app.py:63 | A name without `& < > " '` is shown unescaped. |
| WebApp.MinutesSeconds | src/web_app/app.py:66-70 | For a non-negative duration: whole minutes and seconds 0..59, rounded down to the second. |
| WebApp.DurationShowsMinutesSeconds | src/web_app/app.py:66-70 | The duration shows as those minutes, a colon and two-digit seconds. |
| WebApp.WholeMinutes | src/web_app/app.py:66-70 | `m` whole minutes show as `m:00`, however large `m` is. |
| WebApp.WholeMinutesAsWritten | tests/web_app/test_app.py:12-20 | By the code, 60 and 90 minutes show as `60:00` and `90:00`, not the `1:00` and `1:30` the tests expect. |
| WebApp.FallbackItemOfWholeRun | tests/web_app/test_app.py:14-15 | The item of a test-shaped run: date, name, kilometres and `m:00`. |
| Scheduler.LambdaHandler | src/lambda/apprunner_scheduler/main.py:17-29 | A missing ARN raises `KeyError`. Hour 8 resumes, hour 18 pauses, any other hour does nothing and echoes it. At most one call. |
| Scheduler.ExactlyOneAction | src/lambda/apprunner_scheduler/main.py:23-29 | Exactly one action per hour. Resume and pause are never both issued. |
| Wrappers.OrElse | lambda/garmin_analyzer/garmin_activities.py:250 | Python's `a or b`: `a` when truthy, else `b`. |
| Numbers.Trunc | lambda/garmin_analyzer/garmin_activities.py:36 | `int()` truncates toward zero, within one of the value. |
| Numbers.RoundHalfEven | lambda/garmin_analyzer/garmin_activities.py:54 | `round` is within one half, and even on a tie. |
| Numbers.RoundUnique | lambda/garmin_analyzer/garmin_activities.py:37 | Those two properties determine `round`. |
| Numbers.RoundTo | lambda/garmin_analyzer/garmin_activities.py:260-269 | `round(x, k)` has `k` decimals and is within half a unit of the last decimal. |
| Numbers.Frac | src/web_app/app.py:67 | `x % 1` lies in [0, 1). |
| Text.WordsOfJoin | app.py:133 | Splitting words joined by single spaces gives the words back. |
| Text.WordsEmptyIffBlank | src/web_app/app.py:62 | `split()` finds no word exactly in blank text. |

## Left out

- Garmin Connect, Secrets Manager, S3, Bedrock and the clocks are not modelled. Their results are parameters: the login error, the listing, the TCX file of each identifier, the secret, the object listing with modification times, the loaded documents, put errors and model replies.
- Downloading TCX files (direct, or out of the ORIGINAL zip archive) is left out as file and network I/O. Its outcome is `TcxFetch`.
- XML parsing and namespace lookup are left out. A TCX file is `TcxDocument`: unparseable, or its laps with optional numeric fields.
- `strptime` of `%Y-%m-%d %H:%M:%S` as UTC is left out. It is the parameter `parse`, and `now` is an integer in the same seconds.
- The scheduler's Europe/London conversion is left out. The local hour is a parameter.
- Floats are reals. The model fixes `round` half to even, `int()` truncation and the `repr` of rounded values. It does not model binary float representation error.
- The text of both prompts is fixed prose around the values the model carries. The source handler's "today" date, taken from the clock, is left out of the coaching request.
- `markdown.markdown` is a parameter of `WebApp.Homepage`. Flask routing, the Jinja templates, `/health`, the `/api/files` endpoints, logging and `set_garmin_env_credentials` are left out as framework or environment code.
- Paginated S3 listings are not modelled: the listing is the objects a single call returns.
- App.Index: the `ClientError` branch of `app.py` (lines 370-383) is left out. Every error inside it is already caught by `get_latest_analysis` or by the formatting handler, so the branch cannot be reached. The template's own variables are not modelled.
- WebApp.Homepage: the page with data sets the template variable `recent_runs`, while the other pages set `recent_runs_html`. The model records which one each branch sets, not how the template renders them.
- WebApp.FormatRunsFallback: requires every shown run to have a start time with a first word. For any other run the source raises `IndexError`, and `WebApp.Homepage` models that as a `Failure`.
- HandlerCommon.SortRaises: only a null start time among two or more runs is modelled as making the sort raise. Start times are otherwise text. In both handlers every kept run has a start time (`ActivityFilters.InWindowStarted`), so this branch is never taken there.
- Storage.AnalysisKey: two saves in the same second would share a key. The timestamp is a parameter (`clock(k)` for the `k`-th save), so the model does not rule that out.
- ScratchDir.WipeEffect: directory keys are path strings as given, so `x/.fitcache/` and `x/.fitcache` are two keys. `os.makedirs` is modelled as creating only the scratch directory itself: the parents it may create, and the new entry in its parent, are not modelled. Symbolic links are not modelled. A removal that fails part-way through a subtree is modelled as removing nothing.
- Records are taken to carry all seven keys, as both fetchers write them. So the `.get(key, default)` defaults of the handlers and the readers never apply, and a null value renders as `None`.
- The HTML rendering that the source Lambda asks the model for is not checked. The reply is any text.
