/** The web page of the newer layout. It reads the latest stored analysis and
    shows the stored recent-runs HTML, or a plain list built from the stored
    runs when there is none, and the suggestion rendered from Markdown. The
    bucket, the object listing, the object reads and the Markdown renderer are
    parameters. */
module WebApp {

  import opened Wrappers
  import opened Text
  import opened Numbers
  import opened Records
  import opened Storage

  const BucketVariable := "S3_BUCKET_NAME"
  const MissingBucket := BucketVariable + " environment variable is required"
  const NoSuggestion := "No suggestion yet."
  const FallbackRuns := 15
  const EmptyFallback := "<ul><li>No recent runs.</li></ul>"
  const NoRunsYetHtml := "<ul><li>No runs yet.</li></ul>"
  const NoAnalysisYetHtml := "<p>No analysis yet. The Lambda will analyze your next run.</p>"
  const NoAnalysisHtml := "<p>No analysis available.</p>"
  const IndexError := "list index out of range"

  /** What the reader keeps of the latest document. */
  datatype Latest = Latest(recentRuns: seq<Activity>, suggestion: string, recentRunsHtml: Option<string>)

  /** The suggestion shown: the stored suggestion when it is non-empty, else the
      stored analysis, else a fixed sentence. */
  function Suggestion(d: Document): (s: string)
    ensures Truthy(d.suggestion) ==> s == d.suggestion.value
    ensures !Truthy(d.suggestion) && d.analysis.Some? ==> s == d.analysis.value
    ensures !Truthy(d.suggestion) && d.analysis.None? ==> s == NoSuggestion
  {
    if Truthy(d.suggestion) then d.suggestion.value else d.analysis.GetOr(NoSuggestion)
  }

  /** What listing the analysis prefix gives: the objects, a client error of
      the storage service, or any other error (a failure to build the client,
      a timeout). */
  datatype Listing = Listed(objects: seq<StoredObject>) | ListClientError(message: string) | ListOtherError(message: string)

  /** The latest document of the listing under the analysis prefix: an error
      without a bucket, when listing fails or when reading the latest object
      fails; none without objects. Only a client error of the listing is
      wrapped; any other error keeps its own message. */
  function GetLatestAnalysisFromS3(bucket: string, listing: Listing,
                                   load: string -> Result<Document>): (latest: Result<Option<Latest>>)
    ensures bucket == "" ==> latest == Failure(MissingBucket)
    ensures bucket != "" && listing.ListClientError? ==> latest == Failure("Failed to list S3: " + listing.message)
    ensures bucket != "" && listing.ListOtherError? ==> latest == Failure(listing.message)
    ensures bucket != "" && listing.Listed? && listing.objects == [] ==> latest == Success(None)
    ensures bucket != "" && listing.Listed? && listing.objects != [] ==>
      var key := listing.objects[LatestIndex(listing.objects)].key;
      && (load(key).Failure? ==> latest == Failure("Failed to read " + key + ": " + load(key).error))
      && (load(key).Success? ==> latest.Success? && latest.value.Some?)
    ensures latest.Success? && latest.value.Some? ==>
      exists k :: load(k).Success? && latest.value.value ==
        Latest(load(k).value.recentRuns.GetOr([]), Suggestion(load(k).value), load(k).value.recentRunsHtml)
  {
    if bucket == "" then Failure(MissingBucket)
    else if listing.ListClientError? then Failure("Failed to list S3: " + listing.message)
    else if listing.ListOtherError? then Failure(listing.message)
    else if listing.objects == [] then Success(None)
    else
      var objects := listing.objects;
      var key := objects[LatestIndex(objects)].key;
      match load(key)
      case Failure(e) => Failure("Failed to read " + key + ": " + e)
      case Success(data) =>
        Success(Some(Latest(data.recentRuns.GetOr([]), Suggestion(data), data.recentRunsHtml)))
  }

  // ----- the fallback list -----

  /** A run whose start time has a first word; for any other run the fallback
      list raises `IndexError`. */
  predicate HasDate(a: Activity) {
    a.startTimeLocal.Some? && Words(a.startTimeLocal.value) != []
  }

  predicate AllDated(runs: seq<Activity>) {
    forall i :: 0 <= i < |runs| ==> HasDate(runs[i])
  }

  /** A duration in minutes as `int(d)` minutes and `int(d % 1 * 60)` seconds,
      two digits; `?` when it is not a number. */
  function DurationText(durMin: Option<Number>): string {
    if durMin.None? then "?" else MinutesText(durMin.value.Value())
  }

  function MinutesText(v: real): string {
    IntText(Trunc(v)) + ":" + Pad2(Trunc(Frac(v) * 60.0))
  }

  /** The name shown for a run: its own when non-empty, else `Run`. */
  function ShownName(a: Activity): string {
    if Truthy(a.name) then a.name.value else "Run"
  }

  /** The first word of a run's start time. The list only shows dated runs
      (it raises on the others), so the empty text here is never shown. */
  function StartDate(a: Activity): string {
    if HasDate(a) then Words(a.startTimeLocal.value)[0] else ""
  }

  /** The item of one run: date, escaped name, distance and duration. */
  function FallbackItem(a: Activity): string {
    ("<li>" + StartDate(a) + " - ")
      + (HtmlEscape(ShownName(a)) + ", " + ShowNumber(a.distanceKm) + " km, "
         + DurationText(a.durationMin) + ", avg HR N/A</li>")
  }

  function FallbackItems(runs: seq<Activity>): (items: seq<string>)
    ensures |items| == |runs|
  {
    if runs == [] then [] else FallbackItems(runs[..|runs| - 1]) + [FallbackItem(runs[|runs| - 1])]
  }

  /** The fallback list: one item per run, the first fifteen, in order, in a
      single list; a fixed item without runs. */
  function FallbackHtml(recentRuns: seq<Activity>): string
    requires AllDated(Take(recentRuns, FallbackRuns))
  {
    if recentRuns == [] then EmptyFallback
    else Concat(["<ul>"] + FallbackItems(Take(recentRuns, FallbackRuns)) + ["</ul>"])
  }

  /** Build the fallback list, one item per run. */
  method FormatRunsFallback(recentRuns: seq<Activity>) returns (html: string)
    requires AllDated(Take(recentRuns, FallbackRuns))
    ensures html == FallbackHtml(recentRuns)
  {
    if recentRuns == [] {
      return EmptyFallback;
    }
    var parts := ItemParts(Take(recentRuns, FallbackRuns));
    parts := parts + ["</ul>"];
    return Concat(parts);
  }

  /** The loop of the fallback list: the opening tag, then one item per run. */
  method ItemParts(shown: seq<Activity>) returns (parts: seq<string>)
    requires AllDated(shown)
    ensures parts == ["<ul>"] + FallbackItems(shown)
  {
    var items: seq<string> := [];
    var i := 0;
    while i < |shown|
      invariant 0 <= i <= |shown|
      invariant items == FallbackItems(shown[..i])
    {
      var item := FormatFallbackItem(shown[i]);
      FallbackItemsStep(shown, i);
      items := items + [item];
      i := i + 1;
    }
    assert shown[..i] == shown;
    parts := ["<ul>"] + items;
  }

  /** The item of one run. */
  method FormatFallbackItem(r: Activity) returns (item: string)
    requires HasDate(r)
    ensures item == FallbackItem(r)
  {
    var date := Words(r.startTimeLocal.value)[0];
    assert date == StartDate(r);
    var name := HtmlEscape(ShownName(r));
    var dur := DurationText(r.durationMin);
    item := ("<li>" + date + " - ") + (name + ", " + ShowNumber(r.distanceKm) + " km, " + dur + ", avg HR N/A</li>");
  }

  lemma FallbackItemsStep(runs: seq<Activity>, i: nat)
    requires i < |runs|
    ensures FallbackItems(runs[..i + 1]) == FallbackItems(runs[..i]) + [FallbackItem(runs[i])]
  {
    assert runs[..i + 1][..i] == runs[..i];
  }

  /** Item `i` is the item of run `i`: one item per run, in order. */
  lemma {:induction false} FallbackItemsAt(runs: seq<Activity>)
    ensures forall i :: 0 <= i < |runs| ==> FallbackItems(runs)[i] == FallbackItem(runs[i])
  {
    if runs != [] {
      var init := runs[..|runs| - 1];
      FallbackItemsAt(init);
      var whole := FallbackItems(runs);
      assert whole == FallbackItems(init) + [FallbackItem(runs[|runs| - 1])];
      forall i | 0 <= i < |runs|
        ensures whole[i] == FallbackItem(runs[i])
      {
        if i < |init| {
          assert init[i] == runs[i];
        } else {
          assert i == |runs| - 1;
          var last := runs[|runs| - 1];
          assert whole[i] == FallbackItem(last);
        }
      }
    }
  }

  // ----- the page -----

  /** What the page template receives, with the status code. The error and
      empty pages set the template variable `recent_runs_html`; the page with
      data sets `recent_runs` instead, and leaves `recent_runs_html` unset. */
  datatype Page = Page(statusCode: int, recentRunsHtml: Option<string>, recentRuns: Option<string>,
                       suggestedNextRun: string)

  /** The homepage. A read error is shown on the page, with status 500 when its
      message mentions S3; without a document, fixed texts; otherwise the stored
      runs HTML verbatim when it is non-empty, else the fallback list, and the
      suggestion through `markdown`. The fallback raising escapes as a
      `Failure`. */
  method Homepage(bucket: string, listing: Listing,
                  load: string -> Result<Document>, markdown: string -> string)
    returns (page: Result<Page>)
    ensures var latest := GetLatestAnalysisFromS3(bucket, listing, load);
      && (latest.Failure? ==>
            page == Success(Page(if Contains(latest.error, "S3") then 500 else 200,
                                 Some("<p>Error loading data: " + HtmlEscape(latest.error) + "</p>"),
                                 None, NoAnalysisHtml)))
      && (latest == Success(None) ==> page == Success(Page(200, Some(NoRunsYetHtml), None, NoAnalysisYetHtml)))
      && (latest.Success? && latest.value.Some? ==>
            var data := latest.value.value;
            && (Truthy(data.recentRunsHtml) ==>
                  page == Success(Page(200, None, Some(data.recentRunsHtml.value), markdown(data.suggestion))))
            && (!Truthy(data.recentRunsHtml) && AllDated(Take(data.recentRuns, FallbackRuns)) ==>
                  page == Success(Page(200, None, Some(FallbackHtml(data.recentRuns)), markdown(data.suggestion))))
            && (!Truthy(data.recentRunsHtml) && !AllDated(Take(data.recentRuns, FallbackRuns)) ==>
                  page == Failure(IndexError)))
  {
    var latest := GetLatestAnalysisFromS3(bucket, listing, load);
    if latest.Failure? {
      var e := latest.error;
      return Success(Page(if Contains(e, "S3") then 500 else 200,
                          Some("<p>Error loading data: " + HtmlEscape(e) + "</p>"), None, NoAnalysisHtml));
    }
    if latest.value.None? {
      return Success(Page(200, Some(NoRunsYetHtml), None, NoAnalysisYetHtml));
    }
    var data := latest.value.value;
    var recentRunsHtml := "";
    if Truthy(data.recentRunsHtml) {
      recentRunsHtml := data.recentRunsHtml.value;
    } else {
      if !AllDated(Take(data.recentRuns, FallbackRuns)) {
        return Failure(IndexError);
      }
      recentRunsHtml := FormatRunsFallback(data.recentRuns);
    }
    var suggestedNextRun := markdown(data.suggestion);
    return Success(Page(200, None, Some(recentRunsHtml), suggestedNextRun));
  }

  // ----- lemmas -----

  /** The document read is the one under a latest key of the listing. */
  lemma LatestFromS3IsNewest(bucket: string, objs: seq<StoredObject>, load: string -> Result<Document>, i: int)
    requires bucket != "" && IsLatest(objs, i)
    ensures var key := objs[i].key;
      GetLatestAnalysisFromS3(bucket, Listed(objs), load)
      == match load(key)
         case Failure(e) => Failure("Failed to read " + key + ": " + e)
         case Success(d) => Success(Some(Latest(d.recentRuns.GetOr([]), Suggestion(d), d.recentRunsHtml)))
  {
    LatestIndexUnique(objs, i);
  }

  /** The minutes and seconds of a duration of `v` minutes, `v` at least zero:
      whole minutes and 0 to 59 seconds, the duration rounded down to the
      second. */
  lemma MinutesSeconds(v: real)
    requires v >= 0.0
    ensures var s := Trunc(Frac(v) * 60.0);
      && Trunc(v) == v.Floor >= 0 && 0 <= s < 60
      && (v.Floor * 60 + s) as real <= v * 60.0 < (v.Floor * 60 + s + 1) as real
  {
    var f := Frac(v);
    var s := Trunc(f * 60.0);
    assert 0.0 <= f * 60.0 < 60.0;
    assert s as real <= f * 60.0 < s as real + 1.0;
    assert v * 60.0 == (v.Floor * 60) as real + f * 60.0;
  }

  /** A duration of zero minutes or more shows as its whole minutes, a colon,
      and its seconds as two digits, 0 to 59 (`MinutesSeconds` relates the two
      numbers to the duration). */
  lemma DurationShowsMinutesSeconds(v: real)
    requires v >= 0.0
    ensures var s := Trunc(Frac(v) * 60.0);
      && v.Floor >= 0 && 0 <= s < 60
      && MinutesText(v) == NatText(v.Floor) + ":" + Pad2(s)
  {
    var f := Frac(v);
    assert 0.0 <= f * 60.0 < 60.0;
    var s := Trunc(f * 60.0);
    assert s as real <= f * 60.0 < s as real + 1.0;
    var m := v.Floor;
    assert Trunc(v) == m && IntText(m) == NatText(m);
  }

  /** By this code, sixty minutes show as `60:00` and ninety as `90:00`, not as
      the hours and minutes `1:00` and `1:30` that the tests expect. */
  lemma WholeMinutesAsWritten()
    ensures DurationText(Some(Int(60))) == "60:00" != "1:00"
    ensures DurationText(Some(Int(90))) == "90:00" != "1:30"
  {
    WholeMinutes(60);
    assert NatText(60) == NatText(6) + "0" == "60";
    ClockLiteral("60", "60:00");
    WholeMinutes(90);
    assert NatText(90) == NatText(9) + "0" == "90";
    ClockLiteral("90", "90:00");
  }

  lemma ClockLiteral(m: string, text: string)
    requires |m| == 2 && |text| == 5 && text[..2] == m && text[2..] == ":00"
    ensures m + ":" + "00" == text
  {
    assert ":" + "00" == ":00";
  }

  /** Runs after the fifteenth do not change the fallback list. */
  lemma FallbackShowsFifteen(runs: seq<Activity>, extra: seq<Activity>)
    requires |runs| >= FallbackRuns && AllDated(Take(runs, FallbackRuns))
    ensures Take(runs + extra, FallbackRuns) == Take(runs, FallbackRuns)
    ensures FallbackHtml(runs + extra) == FallbackHtml(runs)
  {
    assert Take(runs + extra, FallbackRuns) == Take(runs, FallbackRuns);
  }

  /** A run's item shows the first word of its start time: for a start time of
      a date, a space and a time, the date. */
  lemma FallbackShowsDate(a: Activity, date: string, time: string)
    requires IsWord(date) && a.startTimeLocal == Some(date + " " + time)
    ensures HasDate(a)
    ensures StartsWith(FallbackItem(a), "<li>" + date + " - ")
  {
    WordsOfWordThen(date, " " + time);
    assert date + " " + time == date + (" " + time);
    assert StartDate(a) == date;
  }

  lemma {:induction false} ConcatAppend(a: seq<string>, b: seq<string>)
    ensures Concat(a + b) == Concat(a) + Concat(b)
  {
    if a != [] {
      assert (a + b)[0] == a[0];
      assert (a + b)[1..] == a[1..] + b;
      ConcatAppend(a[1..], b);
      calc {
        Concat(a + b);
        (a + b)[0] + Concat((a + b)[1..]);
        a[0] + (Concat(a[1..]) + Concat(b));
        (a[0] + Concat(a[1..])) + Concat(b);
      }
    } else {
      assert a + b == b;
    }
  }

  /** The fallback list of some runs is one list holding one item per run, for
      the first fifteen runs, in order. */
  lemma FallbackListShape(runs: seq<Activity>)
    requires runs != [] && AllDated(Take(runs, FallbackRuns))
    ensures var shown := Take(runs, FallbackRuns);
      var items := FallbackItems(shown);
      && |items| == (if |runs| < FallbackRuns then |runs| else FallbackRuns)
      && FallbackHtml(runs) == "<ul>" + Concat(items) + "</ul>"
  {
    var items := FallbackItems(Take(runs, FallbackRuns));
    ConcatAppend(["<ul>"] + items, ["</ul>"]);
    ConcatAppend(["<ul>"], items);
  }

  /** Text without `&`, `<`, `>` and quotes is not changed by escaping. */
  lemma {:induction false} EscapePlain(s: string)
    requires forall i :: 0 <= i < |s| ==> s[i] !in "&<>\"'"
    ensures HtmlEscape(s) == s
  {
    if s != [] {
      var c := s[0];
      assert c != '&' && c != '<' && c != '>' && c != '"' && c != '\'';
      assert EscapeChar(c) == [c];
      var t := s[1..];
      assert forall i :: 0 <= i < |t| ==> t[i] == s[i + 1];
      EscapePlain(t);
      assert s == [c] + t;
    }
  }

  /** A whole number of minutes `m` shows as `m:00`, whatever its size. */
  lemma WholeMinutes(m: nat)
    ensures DurationText(Some(Int(m))) == NatText(m) + ":" + "00"
  {
    assert Int(m).Value() == m as real;
    MinutesOfWhole(m as real, m);
  }

  lemma MinutesOfWhole(v: real, m: nat)
    requires v == m as real
    ensures MinutesText(v) == NatText(m) + ":" + "00"
  {
    assert v.Floor == m;
    assert Frac(v) == 0.0;
    assert Trunc(0.0) == 0 && Pad2(0) == "00";
    assert Trunc(v) == m && IntText(m) == NatText(m);
  }

  /** The item of a run like those of the tests: a start time of a date and a
      time, a name that needs no escaping, and whole kilometres and minutes. */
  lemma FallbackItemOfWholeRun(date: string, time: string, name: string, km: nat, minutes: nat)
    requires IsWord(date) && name != []
    requires forall i :: 0 <= i < |name| ==> name[i] !in "&<>\"'"
    ensures var run := Activity(None, Some(date + " " + time), None, Some(Int(km)), Some(Int(minutes)),
                                Some(name), None);
      && HasDate(run)
      && FallbackItem(run)
         == ("<li>" + date + " - ") + (name + ", " + NatText(km) + " km, " + (NatText(minutes) + ":" + "00")
            + ", avg HR N/A</li>")
  {
    var run := Activity(None, Some(date + " " + time), None, Some(Int(km)), Some(Int(minutes)),
                        Some(name), None);
    WordsOfWordThen(date, " " + time);
    assert date + " " + time == date + (" " + time);
    assert StartDate(run) == date;
    assert ShownName(run) == name;
    EscapePlain(name);
    WholeMinutes(minutes);
    assert ShowNumber(run.distanceKm) == NatText(km);
  }

  lemma {:induction false} ContainsAt(s: string, sub: string, i: nat)
    requires i + |sub| <= |s| && s[i..i + |sub|] == sub
    ensures Contains(s, sub)
  {
    if i > 0 {
      assert s[1..][i - 1..i - 1 + |sub|] == sub;
      ContainsAt(s[1..], sub, i - 1);
    } else {
      assert s[..|sub|] == sub;
    }
  }

  /** A missing bucket and a client error of the listing are read errors whose
      messages mention S3, so the page shows them with status 500. */
  lemma ConfigurationErrorsAre500(bucket: string, listing: Listing,
                                  load: string -> Result<Document>)
    requires bucket == "" || listing.ListClientError?
    ensures var latest := GetLatestAnalysisFromS3(bucket, listing, load);
      latest.Failure? && Contains(latest.error, "S3")
  {
    if bucket == "" {
      assert MissingBucket[..2] == BucketVariable[..2] == "S3";
      ContainsAt(MissingBucket, "S3", 0);
    } else {
      var m := "Failed to list S3: " + listing.message;
      assert m[15..17] == "S3";
      ContainsAt(m, "S3", 15);
    }
  }
}
