/** The lap-row helpers that both Garmin fetchers define identically (pace from
    distance and time, pace and duration text, the one-line row of a lap), and
    the meaning of a parsed TCX file as the optional list of its lap rows. */
module LapFormat {

  import opened Wrappers
  import opened Text
  import opened Numbers

  // ----- pace -----

  /** Pace in minutes per kilometre from a distance in metres and a duration in
      seconds; there is none unless both are numbers and strictly positive
      (`PaceCoversDistance` states what the pace is). */
  function CalculatePace(distM: Option<real>, durS: Option<real>): (pace: Option<real>)
    ensures pace.Some? <==> distM.Some? && durS.Some? && distM.value > 0.0 && durS.value > 0.0
  {
    if distM.None? || durS.None? then None
    else if distM.value <= 0.0 || durS.value <= 0.0 then None
    else Some((durS.value / 60.0) / (distM.value / 1000.0))
  }

  /** The pace a lap row shows: from the average speed (metres per second) when
      that is a positive number, otherwise from distance and duration. */
  function RowPace(distM: Option<real>, durS: Option<real>, speed: Option<real>): (pace: Option<real>)
    ensures speed.Some? && speed.value > 0.0 ==> pace.Some?
    ensures !(speed.Some? && speed.value > 0.0) ==> pace == CalculatePace(distM, durS)
  {
    if speed.Some? && speed.value > 0.0 then Some((1000.0 / speed.value) / 60.0)
    else CalculatePace(distM, durS)
  }

  function PaceMinutes(p: real): int {
    Trunc(p)
  }

  function PaceSeconds(p: real): int {
    RoundHalfEven((p - Trunc(p) as real) * 60.0)
  }

  /** Pace text `M:SS min/km`, or none without a pace. */
  function FormatPace(minPerKm: Option<real>): (s: Option<string>)
    ensures s.None? <==> minPerKm.None?
    ensures s.Some? ==> |s.value| > 1
  {
    match minPerKm
    case None => None
    case Some(p) => Some(IntText(PaceMinutes(p)) + ":" + Pad2(PaceSeconds(p)) + " min/km")
  }

  // ----- duration -----

  /** Python's two `divmod` steps: hours, minutes and seconds of a whole number of
      seconds, with floor division. */
  function Hms(secs: int): (t: (int, int, int))
    ensures 0 <= t.1 < 60 && 0 <= t.2 < 60
    ensures t.0 * 3600 + t.1 * 60 + t.2 == secs
    ensures secs >= 0 ==> t.0 >= 0 && (t.0 > 0 <==> secs >= 3600)
  {
    (secs / 3600, (secs % 3600) / 60, (secs % 3600) % 60)
  }

  /** Duration text: `H:MM:SS` when there is at least one hour, `M:SS` otherwise,
      `?` when the duration is not a number. */
  function FormatDuration(seconds: Option<real>): (s: string)
    ensures s == "?" <==> seconds.None?
  {
    match seconds
    case None => "?"
    case Some(x) => ClockText(RoundHalfEven(x))
  }

  /** The clock text of a whole number of seconds. */
  function ClockText(secs: int): (s: string)
    ensures |s| > 1
  {
    var t := Hms(secs);
    if t.0 > 0 then IntText(t.0) + ":" + Pad2(t.1) + ":" + Pad2(t.2)
    else IntText(t.1) + ":" + Pad2(t.2)
  }

  /** Reads back a clock text `M:SS` or `H:MM:SS` as a number of seconds. */
  function ParseClock(t: string): Option<int> {
    var parts := SplitOn(t, ':');
    if |parts| == 2 && ParseNat(parts[0]).Some? && ParseNat(parts[1]).Some? then
      Some(ParseNat(parts[0]).value * 60 + ParseNat(parts[1]).value)
    else if |parts| == 3 && ParseNat(parts[0]).Some? && ParseNat(parts[1]).Some?
      && ParseNat(parts[2]).Some? then
      Some(ParseNat(parts[0]).value * 3600 + ParseNat(parts[1]).value * 60 + ParseNat(parts[2]).value)
    else None
  }

  // ----- one lap row -----

  /** The five fields of a lap row, as they are written into the row. */
  datatype RowFields = RowFields(title: string, km: string, duration: string, pace: string, hr: string)

  /** The fixed template of a lap row. */
  function RenderRow(f: RowFields): string {
    f.title + " - " + f.km + "km - " + f.duration + " (duration) - " + f.pace + " pace - " + f.hr + " HR"
  }

  /** Distance in kilometres rounded to two decimals, `None` when not a number. */
  function KmText(distM: Option<real>): (s: string)
    ensures s == "None" <==> distM.None?
  {
    match distM
    case Some(d) =>
      var t := NumberText(RoundTo(d / 1000.0, 2));
      assert t[0] != 'N';
      t
    case None => "None"
  }

  /** Whole beats per minute of a heart rate, `?` without one. */
  function HrText(hr: Option<real>): (s: string)
    ensures s == "?" <==> hr.None?
  {
    match hr
    case Some(v) =>
      var t := IntText(Trunc(v));
      assert t[0] != '?';
      t
    case None => "?"
  }

  /** The fields of a lap row: the label, the distance, the duration, the pace
      (`?` without a pace) and the heart rate. */
  function IntervalFields(lapName: string, distM: Option<real>, durS: Option<real>,
                          speed: Option<real>, hr: Option<real>): (f: RowFields)
    ensures f.title == lapName
    ensures f.km == "None" <==> distM.None?
    ensures f.duration == "?" <==> durS.None?
    ensures f.pace == "?" <==> RowPace(distM, durS, speed).None?
    ensures f.hr == "?" <==> hr.None?
  {
    var pace := FormatPace(RowPace(distM, durS, speed));
    assert pace.Some? ==> pace.value != "?";
    RowFields(lapName, KmText(distM), FormatDuration(durS), pace.GetOr("?"), HrText(hr))
  }

  /** One lap row of text. */
  function IntervalRow(lapName: string, distM: Option<real>, durS: Option<real>,
                       speed: Option<real>, hr: Option<real>): string {
    RenderRow(IntervalFields(lapName, distM, durS, speed, hr))
  }

  // ----- TCX laps -----

  /** One optional numeric child of a `<Lap>` element: missing or with empty
      text, a text that `float()` accepts, or one it rejects. */
  datatype LapValue = Absent | Numeric(v: real) | Malformed

  /** A `<Lap>` element: its total time, distance, average heart rate and the
      text of its `<Intensity>` child, if it has one. */
  datatype Lap = Lap(totalTimeSeconds: LapValue, distanceMeters: LapValue,
                     averageHeartRate: LapValue, intensity: Option<string>)

  /** A downloaded TCX file: not well-formed XML, or the `<Lap>` elements found
      anywhere in it, in document order. */
  datatype TcxDocument = Unparseable | Laps(laps: seq<Lap>)

  predicate LapReadable(lap: Lap) {
    !lap.totalTimeSeconds.Malformed? && !lap.distanceMeters.Malformed?
    && !lap.averageHeartRate.Malformed?
  }

  predicate AllReadable(laps: seq<Lap>) {
    forall i :: 0 <= i < |laps| ==> LapReadable(laps[i])
  }

  function FloatOf(v: LapValue): Option<real> {
    match v
    case Numeric(x) => Some(x)
    case _ => None
  }

  /** A lap's label: its intensity text, `lap` when it has no intensity child. */
  function LapLabel(lap: Lap): string {
    lap.intensity.GetOr("lap")
  }

  /** The row of one lap; laps carry no speed, so the pace comes from distance
      and duration. */
  function LapRow(lap: Lap): string {
    IntervalRow(LapLabel(lap), FloatOf(lap.distanceMeters), FloatOf(lap.totalTimeSeconds),
                None, FloatOf(lap.averageHeartRate))
  }

  /** The rows of a sequence of laps, in order. */
  function LapRows(laps: seq<Lap>): (rows: seq<string>)
    ensures |rows| == |laps|
  {
    if laps == [] then [] else LapRows(laps[..|laps| - 1]) + [LapRow(laps[|laps| - 1])]
  }

  /** The interval list of a TCX file: the rows of its laps; none when the file
      does not parse, a number does not parse or there are no laps. */
  function TcxIntervals(doc: TcxDocument): (r: Option<seq<string>>)
    ensures r.Some? <==> doc.Laps? && |doc.laps| > 0 && AllReadable(doc.laps)
    ensures r.Some? ==> r.value == LapRows(doc.laps)
  {
    match doc
    case Unparseable => None
    case Laps(laps) =>
      if |laps| == 0 || !AllReadable(laps) then None
      else Some(LapRows(laps))
  }

  // ----- lemmas -----

  /** Extending a readable prefix of laps by one readable lap adds that lap's row. */
  lemma LapRowsStep(laps: seq<Lap>, i: nat)
    requires i < |laps| && AllReadable(laps[..i]) && LapReadable(laps[i])
    ensures AllReadable(laps[..i + 1])
    ensures LapRows(laps[..i + 1]) == LapRows(laps[..i]) + [LapRow(laps[i])]
  {
    assert laps[..i + 1][..i] == laps[..i];
  }

  /** Row `i` is the row of lap `i`: one row per lap, in document order. */
  lemma {:induction false} LapRowsAt(laps: seq<Lap>)
    ensures forall i :: 0 <= i < |laps| ==> LapRows(laps)[i] == LapRow(laps[i])
  {
    if laps != [] {
      var init := laps[..|laps| - 1];
      LapRowsAt(init);
      var whole := LapRows(laps);
      assert whole == LapRows(init) + [LapRow(laps[|laps| - 1])];
      forall i | 0 <= i < |laps|
        ensures whole[i] == LapRow(laps[i])
      {
        if i < |init| {
          assert init[i] == laps[i];
        } else {
          assert i == |laps| - 1;
          var last := laps[|laps| - 1];
          assert whole[i] == LapRow(last);
        }
      }
    }
  }

  /** The pace from distance and time is positive and covers the distance in
      exactly the given time. */
  lemma PaceCoversDistance(distM: real, durS: real)
    requires distM > 0.0 && durS > 0.0
    ensures var pace := CalculatePace(Some(distM), Some(durS));
      pace.Some? && pace.value > 0.0 && pace.value * (distM / 1000.0) == durS / 60.0
  {
  }

  /** The pace from a positive speed covers a kilometre at that speed. */
  lemma PaceFromSpeed(distM: Option<real>, durS: Option<real>, speed: real)
    requires speed > 0.0
    ensures var pace := RowPace(distM, durS, Some(speed));
      pace.Some? && pace.value * speed * 60.0 == 1000.0
  {
  }

  /** Minutes and seconds of a pace add up to the pace in whole seconds, ties
      rounded to even; the seconds can reach 60. */
  lemma PaceParts(p: real)
    requires p >= 0.0
    ensures 0 <= PaceSeconds(p) <= 60
    ensures PaceMinutes(p) * 60 + PaceSeconds(p) == RoundHalfEven(p * 60.0)
  {
    var m := Trunc(p);
    assert (p - m as real) * 60.0 == p * 60.0 + (2 * (-30 * m)) as real;
    RoundShiftEven(p * 60.0, -30 * m);
  }

  /** A pace just under six minutes is shown as five minutes and sixty seconds. */
  lemma PaceShowsSixtySeconds()
    ensures FormatPace(Some(5.999)) == Some("5:60 min/km")
  {
    assert Trunc(5.999) == 5;
    assert (5.999 - 5.0) * 60.0 == 59.94;
    assert 59.94.Floor == 59;
    assert RoundHalfEven(59.94) == 60;
    assert PaceSeconds(5.999) == 60;
    assert IntText(5) == "5";
    assert NatText(60) == NatText(6) + "0";
    assert Pad2(60) == "60";
    assert IntText(PaceMinutes(5.999)) + ":" + Pad2(PaceSeconds(5.999)) + " min/km" == "5:60 min/km";
  }

  /** Pace from speed and pace from distance and time agree when the speed is
      the distance over the time. */
  lemma PaceSourcesAgree(distM: real, durS: real)
    requires distM > 0.0 && durS > 0.0
    ensures RowPace(Some(distM), Some(durS), Some(distM / durS)) == CalculatePace(Some(distM), Some(durS))
  {
    var v := distM / durS;
    assert v > 0.0;
    var fromSpeed := (1000.0 / v) / 60.0;
    var fromTime := (durS / 60.0) / (distM / 1000.0);
    assert fromSpeed == (1000.0 * durS) / (60.0 * distM);
    assert fromTime == (1000.0 * durS) / (60.0 * distM);
  }

  /** Duration text reads back as the rounded number of seconds, and has the
      hours field exactly when the duration is at least an hour. */
  lemma FormatDurationRoundTrip(x: real)
    requires RoundHalfEven(x) >= 0
    ensures ParseClock(FormatDuration(Some(x))) == Some(RoundHalfEven(x))
    ensures |SplitOn(FormatDuration(Some(x)), ':')| == 3 <==> RoundHalfEven(x) >= 3600
  {
    ClockRoundTrip(RoundHalfEven(x));
  }

  /** The clock text of a non-negative number of seconds splits on `:` into the
      hours (only when there is at least one), then the minutes and the seconds
      with two digits each below the leading field, and reads back as the same
      number of seconds. */
  lemma ClockRoundTrip(secs: int)
    requires secs >= 0
    ensures ParseClock(ClockText(secs)) == Some(secs)
    ensures |SplitOn(ClockText(secs), ':')| == 3 <==> secs >= 3600
    ensures forall i :: 1 <= i < |SplitOn(ClockText(secs), ':')| ==> |SplitOn(ClockText(secs), ':')[i]| == 2
  {
    if secs >= 3600 {
      ClockTextHours(secs);
    } else {
      ClockTextMinutes(secs);
    }
  }

  /** A clock text of at least an hour is hours, minutes and seconds. */
  lemma ClockTextHours(secs: int)
    requires secs >= 3600
    ensures ParseClock(ClockText(secs)) == Some(secs)
    ensures SplitOn(ClockText(secs), ':') == [NatText(Hms(secs).0), Pad2(Hms(secs).1), Pad2(Hms(secs).2)]
    ensures |Pad2(Hms(secs).1)| == 2 && |Pad2(Hms(secs).2)| == 2
  {
    var t := Hms(secs);
    var h: nat, m: nat, sec: nat := t.0, t.1, t.2;
    HoursText(secs);
    ClockHours(h, m, sec, secs);
  }

  /** A clock text under an hour is minutes and seconds. */
  lemma ClockTextMinutes(secs: int)
    requires 0 <= secs < 3600
    ensures ParseClock(ClockText(secs)) == Some(secs)
    ensures SplitOn(ClockText(secs), ':') == [NatText(Hms(secs).1), Pad2(Hms(secs).2)]
    ensures |Pad2(Hms(secs).2)| == 2
  {
    var t := Hms(secs);
    assert t.0 == 0;
    var m: nat, sec: nat := t.1, t.2;
    assert ClockText(secs) == NatText(m) + ":" + Pad2(sec) by {
      assert IntText(m) == NatText(m);
    }
    ClockMinutes(m, sec, secs);
  }

  lemma HoursText(secs: int)
    requires secs >= 3600
    ensures Hms(secs).0 >= 0
    ensures ClockText(secs) == NatText(Hms(secs).0) + ":" + Pad2(Hms(secs).1) + ":" + Pad2(Hms(secs).2)
  {
    var t := Hms(secs);
    assert t.0 > 0;
    assert IntText(t.0) == NatText(t.0);
  }

  lemma ClockHours(h: nat, m: nat, s: nat, secs: int)
    requires m < 60 && s < 60 && secs == h * 3600 + m * 60 + s
    ensures SplitOn(NatText(h) + ":" + Pad2(m) + ":" + Pad2(s), ':') == [NatText(h), Pad2(m), Pad2(s)]
    ensures ParseClock(NatText(h) + ":" + Pad2(m) + ":" + Pad2(s)) == Some(secs)
    ensures |Pad2(m)| == 2 && |Pad2(s)| == 2
  {
    Pad2RoundTrip(m);
    Pad2RoundTrip(s);
    NatTextRoundTrip(h);
    ClockHoursSplit(h, m, s);
  }

  lemma ClockHoursSplit(h: nat, m: nat, s: nat)
    requires AllDigits(Pad2(m)) && AllDigits(Pad2(s))
    ensures SplitOn(NatText(h) + ":" + Pad2(m) + ":" + Pad2(s), ':') == [NatText(h), Pad2(m), Pad2(s)]
  {
    DigitsHaveNoChar(NatText(h), ':');
    DigitsHaveNoChar(Pad2(m), ':');
    DigitsHaveNoChar(Pad2(s), ':');
    SplitOnThree(NatText(h), Pad2(m), Pad2(s), ':');
  }

  lemma ClockMinutes(m: nat, s: nat, secs: int)
    requires s < 60 && secs == m * 60 + s
    ensures SplitOn(NatText(m) + ":" + Pad2(s), ':') == [NatText(m), Pad2(s)]
    ensures ParseClock(NatText(m) + ":" + Pad2(s)) == Some(secs)
    ensures |Pad2(s)| == 2
  {
    Pad2RoundTrip(s);
    NatTextRoundTrip(m);
    DigitsHaveNoChar(NatText(m), ':');
    DigitsHaveNoChar(Pad2(s), ':');
    SplitOnNone(Pad2(s), ':');
    SplitOnCons(NatText(m), ':', Pad2(s));
    assert NatText(m) + ":" + Pad2(s) == NatText(m) + [':'] + Pad2(s);
  }

  /** A lap with no numbers at all gives a row of placeholders. */
  lemma EmptyLapRow(intensity: Option<string>)
    ensures LapRow(Lap(Absent, Absent, Absent, intensity))
         == RenderRow(RowFields(intensity.GetOr("lap"), "None", "?", "?", "?"))
  {
  }
}
