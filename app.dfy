/** The deployed web page: it loads the latest stored analysis and shows its
    three newest runs as a nested list and the first hundred words of the note
    as paragraphs. The object listing and the object reads are parameters. */
module App {

  import opened Wrappers
  import opened Text
  import opened Numbers
  import opened Records
  import opened Storage

  const ShownRuns := 3
  const ShownIntervals := 6
  const AnalysisWords := 100
  const NoRecentRunsHtml := "<p><em>No recent runs found.</em></p>"
  const UntitledRun := "Untitled Run"
  const IndexError := "list index out of range"

  /** A loaded document is falsy only when it has no key at all. */
  predicate DocumentTruthy(d: Document) {
    d != Document(None, None, None, None, None, None, None)
  }

  // ----- the latest analysis -----

  /** The document under the latest key of the listing; none when listing
      fails, when there are no objects, or when the object cannot be read or
      parsed (every error is caught). */
  function GetLatestAnalysis(listing: Result<seq<StoredObject>>, load: string -> Result<Document>)
    : (latest: Option<Document>)
    ensures listing.Failure? || listing.value == [] ==> latest == None
    ensures latest.Some? ==> exists k :: load(k) == Success(latest.value)
  {
    if listing.Failure? || listing.value == [] then None
    else
      var files := listing.value;
      var latestFile := files[LatestIndex(files)];
      match load(latestFile.key)
      case Success(d) => Some(d)
      case Failure(_) => None
  }

  // ----- the recent runs -----

  /** The date shown for a run: the first word of a start time containing a
      space; a start time without a space as it is; `None` for a missing one.
      A start time of spaces only has no first word, and indexing raises. */
  function DateDisplay(startTime: Option<string>): Result<string> {
    if startTime.None? then Success("None")
    else if ' ' in startTime.value then
      var ws := Words(startTime.value);
      if ws == [] then Failure(IndexError) else Success(ws[0])
    else Success(startTime.value)
  }

  /** Minutes and seconds of a pace in minutes per kilometre, both truncated. */
  function MinSec(pace: real): (int, int) {
    var m := Trunc(pace);
    (m, Trunc((pace - m as real) * 60.0))
  }

  predicate HasPace(a: Activity) {
    && a.distanceKm.Some? && a.durationMin.Some?
    && a.distanceKm.value.Value() > 0.0 && a.durationMin.value.Value() > 0.0
  }

  /** The pace of a run, `M:SS/km`, from its duration over its distance; `?`
      unless both are numbers above zero. */
  function PaceText(a: Activity): string {
    if HasPace(a) then
      var ms := MinSec(a.durationMin.value.Value() / a.distanceKm.value.Value());
      IntText(ms.0) + ":" + Pad2(ms.1) + "/km"
    else "?"
  }

  /** The summary line of a run. Records carry no `averageHR`, so the heart
      rate always shows as `?`. */
  function RunSummary(a: Activity): Result<string> {
    match DateDisplay(a.startTimeLocal)
    case Failure(e) => Failure(e)
    case Success(date) =>
      var name := if Truthy(a.name) then a.name.value else UntitledRun;
      Success(date + " - " + name + ", " + ShowNumber(a.distanceKm) + " km, "
              + ShowNumber(a.durationMin) + " min, " + PaceText(a) + ", avg HR ?")
  }

  function IntervalItems(intervals: seq<string>): (items: seq<string>)
    ensures |items| == |intervals|
  {
    seq(|intervals|, i requires 0 <= i < |intervals| => "<li>" + HtmlEscape(intervals[i]) + "</li>")
  }

  /** The nested list of a run's first six intervals, when it has any. */
  function IntervalBlock(intervals: Option<seq<string>>): seq<string> {
    if intervals.Some? && intervals.value != [] then
      ["<ul>"] + IntervalItems(Take(intervals.value, ShownIntervals)) + ["</ul>"]
    else []
  }

  /** The HTML parts of one run's list item. */
  function RunParts(a: Activity): Result<seq<string>> {
    match RunSummary(a)
    case Failure(e) => Failure(e)
    case Success(summary) => Success(["<li>" + HtmlEscape(summary)] + IntervalBlock(a.intervals) + ["</li>"])
  }

  /** The parts already built followed by the rest, unless the rest fails. */
  function Then(done: seq<string>, rest: Result<seq<string>>): Result<seq<string>> {
    if rest.Failure? then rest else Success(done + rest.value)
  }

  /** The parts of the runs' items in order; the first run that fails decides. */
  function RunsParts(runs: seq<Activity>): Result<seq<string>>
    decreases |runs|
  {
    if runs == [] then Success([])
    else
      match RunParts(runs[0])
      case Failure(e) => Failure(e)
      case Success(parts) => Then(parts, RunsParts(runs[1..]))
  }

  /** The recent-runs panel: none for a missing or empty document, a fixed
      paragraph without runs, otherwise a list of the first three runs. */
  function RecentRunsHtml(analysisData: Option<Document>): Result<Option<string>> {
    if analysisData.None? || !DocumentTruthy(analysisData.value) then Success(None)
    else
      var runs := analysisData.value.recentRuns.GetOr([]);
      if runs == [] then Success(Some(NoRecentRunsHtml))
      else
        match RunsParts(Take(runs, ShownRuns))
        case Failure(e) => Failure(e)
        case Success(parts) => Success(Some(Concat(["<ul>"] + parts + ["</ul>"])))
  }

  /** Render the three most recent runs as a nested list. */
  method FormatRecentRunsHtml(analysisData: Option<Document>) returns (html: Result<Option<string>>)
    ensures html == RecentRunsHtml(analysisData)
  {
    if analysisData.None? || !DocumentTruthy(analysisData.value) {
      return Success(None);
    }
    var recentRuns := analysisData.value.recentRuns.GetOr([]);
    if recentRuns == [] {
      return Success(Some(NoRecentRunsHtml));
    }
    var shown := Take(recentRuns, ShownRuns);
    var htmlParts: seq<string> := ["<ul>"];
    var i := 0;
    while i < |shown|
      invariant 0 <= i <= |shown|
      invariant Then(htmlParts, RunsParts(shown[i..])) == Then(["<ul>"], RunsParts(shown))
    {
      RunsPartsStep(shown, i);
      var parts := RunHtmlParts(shown[i]);
      if parts.Failure? {
        return Failure(parts.error);
      }
      ThenAssoc(htmlParts, parts.value, RunsParts(shown[i + 1..]));
      htmlParts := htmlParts + parts.value;
      i := i + 1;
    }
    assert shown[i..] == [];
    assert htmlParts + [] == htmlParts;
    assert RunsParts(shown) == Success(htmlParts[1..]);
    htmlParts := htmlParts + ["</ul>"];
    return Success(Some(Concat(htmlParts)));
  }

  /** One pass of the loop over the runs: the item with its nested intervals. */
  method RunHtmlParts(run: Activity) returns (parts: Result<seq<string>>)
    ensures parts == RunParts(run)
  {
    var summary := RunSummaryText(run);
    if summary.Failure? {
      return Failure(summary.error);
    }
    var intervals := run.intervals;
    var block: seq<string> := [];
    if intervals.Some? && intervals.value != [] {
      var items := IntervalListItems(Take(intervals.value, ShownIntervals));
      block := ["<ul>"] + items + ["</ul>"];
    }
    assert block == IntervalBlock(run.intervals);
    return Success(["<li>" + HtmlEscape(summary.value)] + block + ["</li>"]);
  }

  /** The summary line of one run, or the error its start time raises. */
  method RunSummaryText(run: Activity) returns (summary: Result<string>)
    ensures summary == RunSummary(run)
  {
    var name := if Truthy(run.name) then run.name.value else UntitledRun;
    var dateDisplay := DateDisplay(run.startTimeLocal);
    if dateDisplay.Failure? {
      return Failure(dateDisplay.error);
    }
    var pace := PaceText(run);
    var line := dateDisplay.value + " - " + name + ", " + ShowNumber(run.distanceKm) + " km, "
                + ShowNumber(run.durationMin) + " min, " + pace + ", avg HR ?";
    assert RunSummary(run) == Success(line);
    return Success(line);
  }

  /** The loop over a run's shown intervals: one escaped item each, in order. */
  method IntervalListItems(shown: seq<string>) returns (items: seq<string>)
    ensures items == IntervalItems(shown)
  {
    items := [];
    var j := 0;
    while j < |shown|
      invariant 0 <= j <= |shown|
      invariant items == IntervalItems(shown[..j])
    {
      assert IntervalItems(shown[..j + 1]) == IntervalItems(shown[..j]) + ["<li>" + HtmlEscape(shown[j]) + "</li>"];
      items := items + ["<li>" + HtmlEscape(shown[j]) + "</li>"];
      j := j + 1;
    }
    assert shown[..j] == shown;
  }

  // ----- the analysis -----

  /** Python's `truncate_to_words`: the text itself when it has at most
      `maxWords` words, else its first `maxWords` words joined by single spaces
      and followed by `...`. */
  function TruncateToWords(text: string, maxWords: nat): (r: string)
    ensures |Words(text)| <= maxWords ==> r == text
  {
    var words := Words(text);
    if |words| <= maxWords then text else Join(words[..maxWords], " ") + "..."
  }

  /** Each line stripped. */
  function StripAll(lines: seq<string>): (stripped: seq<string>)
    ensures |stripped| == |lines|
  {
    seq(|lines|, i requires 0 <= i < |lines| => Strip(lines[i]))
  }

  /** The page lines for the stripped lines of the note: a paragraph per
      non-empty line and one break for each run of empty lines. */
  function FormattedLines(lines: seq<string>, prevWasBlank: bool): seq<string>
    decreases |lines|
  {
    if lines == [] then []
    else if lines[0] == [] then
      (if prevWasBlank then [] else ["<br>"]) + FormattedLines(lines[1..], true)
    else ["<p>" + lines[0] + "</p>"] + FormattedLines(lines[1..], false)
  }

  /** The lines of the note as shown: the first hundred words, escaped, split at
      line breaks. */
  function AnalysisLines(analysis: string): seq<string> {
    SplitOn(HtmlEscape(TruncateToWords(analysis, AnalysisWords)), '\n')
  }

  /** The analysis panel: none for a missing or empty document, or without a
      note. */
  function AnalysisHtml(analysisData: Option<Document>): Option<string> {
    if analysisData.None? || !DocumentTruthy(analysisData.value) || !Truthy(analysisData.value.analysis) then None
    else Some(Join(FormattedLines(StripAll(AnalysisLines(analysisData.value.analysis.value)), false), "\n"))
  }

  /** Render the note as paragraphs. */
  method FormatAnalysisHtml(analysisData: Option<Document>) returns (html: Option<string>)
    ensures html == AnalysisHtml(analysisData)
  {
    if analysisData.None? || !DocumentTruthy(analysisData.value) {
      return None;
    }
    var analysisText := analysisData.value.analysis;
    if !Truthy(analysisText) {
      return None;
    }
    var lines := AnalysisLines(analysisText.value);
    var formattedLines := FormatLines(lines);
    return Some(Join(formattedLines, "\n"));
  }

  /** The loop of `format_analysis_html` over the note's lines, remembering
      whether the previous line was blank. */
  method FormatLines(lines: seq<string>) returns (formattedLines: seq<string>)
    ensures formattedLines == FormattedLines(StripAll(lines), false)
  {
    ghost var stripped := StripAll(lines);
    formattedLines := [];
    var prevWasBlank := false;
    var i := 0;
    while i < |lines|
      invariant 0 <= i <= |lines|
      invariant formattedLines + FormattedLines(stripped[i..], prevWasBlank) == FormattedLines(stripped, false)
    {
      FormatStep(formattedLines, stripped, i, prevWasBlank);
      var line := Strip(lines[i]);
      if line == [] {
        if !prevWasBlank {
          formattedLines := formattedLines + ["<br>"];
          prevWasBlank := true;
        }
        i := i + 1;
        continue;
      }
      prevWasBlank := false;
      formattedLines := formattedLines + ["<p>" + line + "</p>"];
      i := i + 1;
    }
    assert stripped[i..] == [];
  }

  // ----- the page -----

  /** What the page template receives. */
  datatype View = View(recentRuns: Option<string>, suggestedNextRun: Option<string>,
                       analysisError: Option<string>)

  /** The homepage: both panels of the latest analysis, or neither with the
      error when formatting the runs raises. */
  function Index(listing: Result<seq<StoredObject>>, load: string -> Result<Document>): (view: View)
    ensures var latest := GetLatestAnalysis(listing, load);
      && (view.analysisError.Some? <==> RecentRunsHtml(latest).Failure?)
      && (view.analysisError.Some? ==>
            view == View(None, None, Some("Error formatting analysis: " + RecentRunsHtml(latest).error)))
      && (view.analysisError.None? ==>
            view.recentRuns == RecentRunsHtml(latest).value && view.suggestedNextRun == AnalysisHtml(latest))
  {
    var latestAnalysis := GetLatestAnalysis(listing, load);
    if latestAnalysis.None? || !DocumentTruthy(latestAnalysis.value) then View(None, None, None)
    else
      match RecentRunsHtml(latestAnalysis)
      case Failure(e) => View(None, None, Some("Error formatting analysis: " + e))
      case Success(recentRunsHtml) => View(recentRunsHtml, AnalysisHtml(latestAnalysis), None)
  }

  // ----- lemmas -----

  /** The loaded document is the one under a latest key of the listing. */
  lemma LatestAnalysisIsNewest(objs: seq<StoredObject>, load: string -> Result<Document>, i: int)
    requires IsLatest(objs, i)
    ensures GetLatestAnalysis(Success(objs), load)
            == if load(objs[i].key).Success? then Some(load(objs[i].key).value) else None
  {
    LatestIndexUnique(objs, i);
  }

  /** A start time with a space shows its first word. */
  lemma DateIsFirstWord(w: string, t: string)
    requires IsWord(w) && t != [] && t[0] == ' '
    ensures DateDisplay(Some(w + t)) == Success(w)
  {
    WordsOfWordThen(w, t);
    assert (w + t)[|w|] == ' ';
  }

  /** Rendering the date raises exactly for a start time of whitespace that
      holds a space. */
  lemma DateFails(s: string)
    ensures DateDisplay(Some(s)).Failure? <==> ' ' in s && IsBlank(s)
  {
    WordsEmptyIffBlank(s);
  }

  /** The truncated pace: a whole number of minutes and 0 to 59 seconds, the
      pace rounded down to the second. */
  lemma MinSecBounds(pace: real)
    requires pace > 0.0
    ensures var ms := MinSec(pace);
      && ms.0 >= 0 && 0 <= ms.1 < 60
      && (ms.0 * 60 + ms.1) as real <= pace * 60.0 < (ms.0 * 60 + ms.1 + 1) as real
  {
    var m := Trunc(pace);
    var f := pace - m as real;
    assert 0.0 <= f < 1.0;
    var s := Trunc(f * 60.0);
    assert 0.0 <= f * 60.0 < 60.0;
    assert s as real <= f * 60.0 < s as real + 1.0;
    assert pace * 60.0 == (m * 60) as real + f * 60.0;
  }

  /** A pace is shown exactly when distance and duration are numbers above
      zero, and then as minutes and two-digit seconds. */
  lemma PaceShown(a: Activity)
    ensures PaceText(a) != "?" <==> HasPace(a)
    ensures HasPace(a) ==>
      var ms := MinSec(a.durationMin.value.Value() / a.distanceKm.value.Value());
      ms.0 >= 0 && 0 <= ms.1 < 60 && PaceText(a) == NatText(ms.0) + ":" + Pad2(ms.1) + "/km"
  {
    if HasPace(a) {
      var p := a.durationMin.value.Value() / a.distanceKm.value.Value();
      assert p > 0.0;
      MinSecBounds(p);
      assert |PaceText(a)| > 1;
    }
  }

  /** Rendering the runs raises exactly when one of their dates does. */
  lemma {:induction false} RunsPartsFailure(runs: seq<Activity>)
    ensures RunsParts(runs).Failure? <==>
            exists i :: 0 <= i < |runs| && DateDisplay(runs[i].startTimeLocal).Failure?
  {
    if runs != [] {
      RunsPartsFailure(runs[1..]);
      assert forall i :: 0 < i < |runs| ==> runs[i] == runs[1..][i - 1];
      if RunParts(runs[0]).Success? {
        assert DateDisplay(runs[0].startTimeLocal).Success?;
        if RunsParts(runs[1..]).Failure? {
          var i :| 0 <= i < |runs[1..]| && DateDisplay(runs[1..][i].startTimeLocal).Failure?;
          assert runs[i + 1] == runs[1..][i];
        }
      }
    }
  }

  /** Runs after the third do not change the panel. */
  lemma ShowsThreeRuns(d: Document, runs: seq<Activity>, extra: seq<Activity>)
    requires |runs| >= ShownRuns
    ensures RecentRunsHtml(Some(d.(recentRuns := Some(runs + extra))))
            == RecentRunsHtml(Some(d.(recentRuns := Some(runs))))
  {
    assert Take(runs + extra, ShownRuns) == Take(runs, ShownRuns);
  }

  /** Intervals after the sixth do not change a run's item. */
  lemma ShowsSixIntervals(intervals: seq<string>, extra: seq<string>)
    requires |intervals| >= ShownIntervals
    ensures IntervalBlock(Some(intervals + extra)) == IntervalBlock(Some(intervals))
  {
    assert Take(intervals + extra, ShownIntervals) == Take(intervals, ShownIntervals);
  }

  /** A truncated text ends in `...` after exactly the first `maxWords` words. */
  lemma TruncatedWords(text: string, maxWords: nat)
    requires |Words(text)| > maxWords
    ensures var r := TruncateToWords(text, maxWords);
      |r| >= 3 && r[|r| - 3..] == "..." && Words(r[..|r| - 3]) == Words(text)[..maxWords]
  {
    var head := Join(Words(text)[..maxWords], " ");
    var r := head + "...";
    assert r[..|r| - 3] == head;
    WordsOfJoin(Words(text)[..maxWords]);
  }

  /** With a positive cap, the result has as many words as the text, up to the
      cap. */
  lemma TruncateWordCount(text: string, maxWords: nat)
    requires maxWords >= 1
    ensures |Words(TruncateToWords(text, maxWords))|
            == if |Words(text)| <= maxWords then |Words(text)| else maxWords
  {
    var ws := Words(text);
    if |ws| > maxWords {
      var head := ws[..maxWords];
      var n := |head|;
      JoinAppend(head, " ", "...");
      var marked := head[..n - 1] + [head[n - 1] + "..."];
      forall i | 0 <= i < |marked|
        ensures IsWord(marked[i])
      {
        if i == n - 1 {
          var w := head[n - 1] + "...";
          assert forall k :: 0 <= k < |w| ==> k < |head[n - 1]| || w[k] == '.';
        }
      }
      WordsOfJoin(marked);
    }
  }

  /** Truncating twice with a positive cap is truncating once. */
  lemma TruncateIdempotent(text: string, maxWords: nat)
    requires maxWords >= 1
    ensures TruncateToWords(TruncateToWords(text, maxWords), maxWords) == TruncateToWords(text, maxWords)
  {
    TruncateWordCount(text, maxWords);
  }

  /** No two breaks follow each other. */
  predicate NoTwoBreaks(out: seq<string>) {
    forall i :: 0 <= i < |out| - 1 ==> !(out[i] == "<br>" && out[i + 1] == "<br>")
  }

  /** A run of blank lines yields one break: two breaks never follow each
      other, and after a blank line the output does not start with one. */
  lemma {:induction false} NoDoubleBreak(lines: seq<string>, prevWasBlank: bool)
    ensures var out := FormattedLines(lines, prevWasBlank);
      NoTwoBreaks(out) && (prevWasBlank && out != [] ==> out[0] != "<br>")
  {
    if lines != [] {
      var line := lines[0];
      var rest := FormattedLines(lines[1..], line == []);
      NoDoubleBreak(lines[1..], line == []);
      if line != [] {
        ParagraphIsNoBreak(line);
        ConsNoTwoBreaks("<p>" + line + "</p>", rest);
      } else if !prevWasBlank {
        ConsNoTwoBreaks("<br>", rest);
      }
    }
  }

  lemma ConsNoTwoBreaks(x: string, rest: seq<string>)
    requires NoTwoBreaks(rest)
    requires x == "<br>" && rest != [] ==> rest[0] != "<br>"
    ensures NoTwoBreaks([x] + rest)
  {
    var out := [x] + rest;
    forall i | 0 <= i < |out| - 1
      ensures !(out[i] == "<br>" && out[i + 1] == "<br>")
    {
      if i > 0 {
        assert out[i] == rest[i - 1] && out[i + 1] == rest[i];
      }
    }
  }

  /** The paragraphs of the non-empty lines, in order. */
  function Paragraphs(lines: seq<string>): seq<string>
    decreases |lines|
  {
    if lines == [] then []
    else (if lines[0] == [] then [] else ["<p>" + lines[0] + "</p>"]) + Paragraphs(lines[1..])
  }

  function DropBreaks(out: seq<string>): seq<string>
    decreases |out|
  {
    if out == [] then []
    else (if out[0] == "<br>" then [] else [out[0]]) + DropBreaks(out[1..])
  }

  /** Without its breaks, the output is one paragraph per non-empty line. */
  lemma {:induction false} ParagraphsOfLines(lines: seq<string>, prevWasBlank: bool)
    ensures DropBreaks(FormattedLines(lines, prevWasBlank)) == Paragraphs(lines)
  {
    if lines != [] {
      var line := lines[0];
      var rest := FormattedLines(lines[1..], line == []);
      ParagraphsOfLines(lines[1..], line == []);
      var out := FormattedLines(lines, prevWasBlank);
      if line != [] {
        ParagraphIsNoBreak(line);
        assert out == ["<p>" + line + "</p>"] + rest;
        assert out[1..] == rest;
      } else if !prevWasBlank {
        assert out == ["<br>"] + rest;
        assert out[1..] == rest;
      } else {
        assert out == rest;
      }
    }
  }

  /** Line `i` is empty and starts a run of empty lines. */
  predicate BlankRunStart(lines: seq<string>, prevWasBlank: bool, i: int) {
    && 0 <= i < |lines| && lines[i] == []
    && if i == 0 then !prevWasBlank else lines[i - 1] != []
  }

  /** The output holds a break exactly when some run of empty lines starts. */
  lemma {:induction false} BreakIffBlankRun(lines: seq<string>, prevWasBlank: bool)
    ensures "<br>" in FormattedLines(lines, prevWasBlank) <==>
            exists i :: BlankRunStart(lines, prevWasBlank, i)
  {
    if lines != [] {
      var line := lines[0];
      var tail := lines[1..];
      var blank := line == [];
      BreakIffBlankRun(tail, blank);
      var rest := FormattedLines(tail, blank);
      var head := if line != [] then ["<p>" + line + "</p>"] else if prevWasBlank then [] else ["<br>"];
      assert FormattedLines(lines, prevWasBlank) == head + rest;
      ParagraphIsNoBreak(line);
      assert "<br>" in head <==> BlankRunStart(lines, prevWasBlank, 0);
      forall j | 0 <= j < |tail|
        ensures BlankRunStart(tail, blank, j) <==> BlankRunStart(lines, prevWasBlank, j + 1)
      {
        assert tail[j] == lines[j + 1];
        if j > 0 {
          assert tail[j - 1] == lines[j];
        }
      }
      if exists i :: BlankRunStart(lines, prevWasBlank, i) {
        var i :| BlankRunStart(lines, prevWasBlank, i);
        if i > 0 {
          assert BlankRunStart(tail, blank, i - 1);
        }
      }
    }
  }

  /** Every empty line lies in a run of empty lines that starts at or before it. */
  lemma {:induction false} BlankRunStarts(lines: seq<string>, i: int)
    requires 0 <= i < |lines| && lines[i] == []
    ensures exists j :: 0 <= j <= i && BlankRunStart(lines, false, j)
  {
    if i > 0 && lines[i - 1] == [] {
      BlankRunStarts(lines, i - 1);
      var j :| 0 <= j <= i - 1 && BlankRunStart(lines, false, j);
      assert 0 <= j <= i;
    } else {
      assert BlankRunStart(lines, false, i);
    }
  }

  /** The output holds a break exactly when some line of the note is blank. */
  lemma BreakIffBlankLine(lines: seq<string>)
    ensures "<br>" in FormattedLines(StripAll(lines), false) <==>
            exists i :: 0 <= i < |lines| && Strip(lines[i]) == []
  {
    var stripped := StripAll(lines);
    BreakIffBlankRun(stripped, false);
    if exists i :: 0 <= i < |lines| && Strip(lines[i]) == [] {
      var i :| 0 <= i < |lines| && Strip(lines[i]) == [];
      BlankRunStarts(stripped, i);
    }
    if exists j :: BlankRunStart(stripped, false, j) {
      var j :| BlankRunStart(stripped, false, j);
      assert Strip(lines[j]) == stripped[j];
    }
  }

  lemma ParagraphIsNoBreak(line: string)
    ensures "<p>" + line + "</p>" != "<br>"
  {
    assert ("<p>" + line + "</p>")[1] == 'p' && "<br>"[1] == 'b';
  }

  lemma RunsPartsStep(runs: seq<Activity>, i: nat)
    requires i < |runs|
    ensures RunsParts(runs[i..]) == match RunParts(runs[i])
                                    case Failure(e) => Failure(e)
                                    case Success(parts) => Then(parts, RunsParts(runs[i + 1..]))
  {
    assert runs[i..][1..] == runs[i + 1..];
  }

  lemma ThenAssoc(done: seq<string>, parts: seq<string>, rest: Result<seq<string>>)
    ensures Then(done, Then(parts, rest)) == Then(done + parts, rest)
  {
    if rest.Success? {
      assert done + (parts + rest.value) == (done + parts) + rest.value;
    }
  }

  /** One pass of the line loop keeps the output so far and the output for the
      remaining lines adding up to the whole. */
  lemma FormatStep(done: seq<string>, lines: seq<string>, i: nat, prevWasBlank: bool)
    requires i < |lines|
    requires done + FormattedLines(lines[i..], prevWasBlank) == FormattedLines(lines, false)
    ensures lines[i] == [] && !prevWasBlank ==>
      (done + ["<br>"]) + FormattedLines(lines[i + 1..], true) == FormattedLines(lines, false)
    ensures lines[i] == [] && prevWasBlank ==>
      done + FormattedLines(lines[i + 1..], true) == FormattedLines(lines, false)
    ensures lines[i] != [] ==>
      (done + ["<p>" + lines[i] + "</p>"]) + FormattedLines(lines[i + 1..], false) == FormattedLines(lines, false)
  {
    FormattedLinesStep(lines, i, prevWasBlank);
    if lines[i] == [] {
      var rest := FormattedLines(lines[i + 1..], true);
      if !prevWasBlank {
        assert done + (["<br>"] + rest) == (done + ["<br>"]) + rest;
      } else {
        assert [] + rest == rest;
      }
    } else {
      var rest := FormattedLines(lines[i + 1..], false);
      var p := "<p>" + lines[i] + "</p>";
      assert done + ([p] + rest) == (done + [p]) + rest;
    }
  }

  lemma FormattedLinesStep(lines: seq<string>, i: nat, prevWasBlank: bool)
    requires i < |lines|
    ensures FormattedLines(lines[i..], prevWasBlank)
            == if lines[i] == [] then
                 (if prevWasBlank then [] else ["<br>"]) + FormattedLines(lines[i + 1..], true)
               else ["<p>" + lines[i] + "</p>"] + FormattedLines(lines[i + 1..], false)
  {
    assert lines[i..][1..] == lines[i + 1..];
  }
}
