/** The two time-window filters that both analysis handlers define identically:
    the activities of the last few days (the context window) and the runs of the
    last few hours (the trigger window). A start time is read with a parser
    given as a parameter (`strptime` on `%Y-%m-%d %H:%M:%S`, taken as UTC), which
    yields seconds since the epoch or nothing when the text does not parse; `now`
    is the current time in the same seconds. */
module ActivityFilters {

  import opened Wrappers
  import opened Records
  import opened RunOrder

  const SecondsPerDay := 86400
  const SecondsPerHour := 3600

  /** The start time of an activity, when it has a non-empty one that parses. */
  function StartTime(a: Activity, parse: string -> Option<int>): Option<int> {
    if Truthy(a.startTimeLocal) then parse(a.startTimeLocal.value) else None
  }

  /** An activity starts at or after the cutoff (the boundary is inclusive). */
  predicate StartsBy(a: Activity, parse: string -> Option<int>, cutoff: int) {
    StartTime(a, parse).Some? && StartTime(a, parse).value >= cutoff
  }

  predicate IsRun(a: Activity) {
    a.activityType == Some("running")
  }

  /** The activities starting at or after the cutoff, in input order. */
  function InWindow(acts: seq<Activity>, parse: string -> Option<int>, cutoff: int): (r: seq<Activity>)
    ensures |r| <= |acts|
  {
    if acts == [] then []
    else
      var a := acts[|acts| - 1];
      InWindow(acts[..|acts| - 1], parse, cutoff) + (if StartsBy(a, parse, cutoff) then [a] else [])
  }

  /** The runs starting at or after the cutoff, in input order. */
  function RunsInWindow(acts: seq<Activity>, parse: string -> Option<int>, cutoff: int): (r: seq<Activity>)
    ensures |r| <= |acts|
  {
    if acts == [] then []
    else
      var a := acts[|acts| - 1];
      RunsInWindow(acts[..|acts| - 1], parse, cutoff)
        + (if IsRun(a) && StartsBy(a, parse, cutoff) then [a] else [])
  }

  /** The running activities of a list, in order. */
  function Runs(acts: seq<Activity>): (r: seq<Activity>)
    ensures |r| <= |acts|
    ensures forall i :: 0 <= i < |r| ==> IsRun(r[i])
  {
    if acts == [] then []
    else
      var a := acts[|acts| - 1];
      Runs(acts[..|acts| - 1]) + (if IsRun(a) then [a] else [])
  }

  /** `s` is `t` with some elements deleted: order is kept and nothing is added. */
  predicate Subsequence(s: seq<Activity>, t: seq<Activity>)
    decreases |t|
  {
    if s == [] then true
    else if t == [] then false
    else (s[|s| - 1] == t[|t| - 1] && Subsequence(s[..|s| - 1], t[..|t| - 1]))
         || Subsequence(s, t[..|t| - 1])
  }

  /** The activities of the last `days` days: those whose start time is missing,
      empty or unparseable are skipped, never an error. */
  method FilterActivitiesByDate(activities: seq<Activity>, parse: string -> Option<int>, now: int, days: int)
    returns (filtered: seq<Activity>)
    ensures filtered == InWindow(activities, parse, now - days * SecondsPerDay)
  {
    var cutoff := now - days * SecondsPerDay;
    filtered := [];
    var i := 0;
    while i < |activities|
      invariant 0 <= i <= |activities|
      invariant filtered == InWindow(activities[..i], parse, cutoff)
    {
      var activity := activities[i];
      assert activities[..i + 1][..i] == activities[..i];
      var startText := activity.startTimeLocal;
      if !Truthy(startText) {
        i := i + 1;
        continue;
      }
      var startTime := parse(startText.value);
      if startTime.None? {
        i := i + 1;
        continue;
      }
      if startTime.value >= cutoff {
        filtered := filtered + [activity];
      }
      i := i + 1;
    }
    assert activities[..i] == activities;
  }

  /** The runs of the last `hours` hours. */
  method FilterRecentRuns(activities: seq<Activity>, parse: string -> Option<int>, now: int, hours: int)
    returns (recentRuns: seq<Activity>)
    ensures recentRuns == RunsInWindow(activities, parse, now - hours * SecondsPerHour)
  {
    var cutoff := now - hours * SecondsPerHour;
    recentRuns := [];
    var i := 0;
    while i < |activities|
      invariant 0 <= i <= |activities|
      invariant recentRuns == RunsInWindow(activities[..i], parse, cutoff)
    {
      var activity := activities[i];
      assert activities[..i + 1][..i] == activities[..i];
      if activity.activityType != Some("running") {
        i := i + 1;
        continue;
      }
      var startText := activity.startTimeLocal;
      if !Truthy(startText) {
        i := i + 1;
        continue;
      }
      var startTime := parse(startText.value);
      if startTime.None? {
        i := i + 1;
        continue;
      }
      if startTime.value >= cutoff {
        recentRuns := recentRuns + [activity];
      }
      i := i + 1;
    }
    assert activities[..i] == activities;
  }

  // ----- lemmas -----

  /** The context window keeps the order of its input and adds nothing. */
  lemma {:induction false} InWindowSubsequence(acts: seq<Activity>, parse: string -> Option<int>, cutoff: int)
    ensures Subsequence(InWindow(acts, parse, cutoff), acts)
  {
    if acts != [] {
      var init := acts[..|acts| - 1];
      InWindowSubsequence(init, parse, cutoff);
      var r := InWindow(acts, parse, cutoff);
      var a := acts[|acts| - 1];
      if StartsBy(a, parse, cutoff) {
        assert r == InWindow(init, parse, cutoff) + [a];
        assert r[..|r| - 1] == InWindow(init, parse, cutoff);
      } else {
        assert r == InWindow(init, parse, cutoff);
      }
    }
  }

  /** The trigger window keeps the order of its input and adds nothing. */
  lemma {:induction false} RunsInWindowSubsequence(acts: seq<Activity>, parse: string -> Option<int>, cutoff: int)
    ensures Subsequence(RunsInWindow(acts, parse, cutoff), acts)
  {
    if acts != [] {
      var init := acts[..|acts| - 1];
      RunsInWindowSubsequence(init, parse, cutoff);
      var r := RunsInWindow(acts, parse, cutoff);
      var a := acts[|acts| - 1];
      if IsRun(a) && StartsBy(a, parse, cutoff) {
        assert r == RunsInWindow(init, parse, cutoff) + [a];
        assert r[..|r| - 1] == RunsInWindow(init, parse, cutoff);
      } else {
        assert r == RunsInWindow(init, parse, cutoff);
      }
    }
  }

  /** An activity is kept by the context window exactly when it is in the input
      and starts at or after the cutoff. */
  lemma {:induction false} InWindowMembers(acts: seq<Activity>, parse: string -> Option<int>, cutoff: int, a: Activity)
    ensures a in InWindow(acts, parse, cutoff) <==> a in acts && StartsBy(a, parse, cutoff)
  {
    if acts != [] {
      var init := acts[..|acts| - 1];
      InWindowMembers(init, parse, cutoff, a);
      assert acts == init + [acts[|acts| - 1]];
    }
  }

  /** An activity is kept by the trigger window exactly when it is a run of the
      input starting at or after the cutoff. */
  lemma {:induction false} RunsInWindowMembers(acts: seq<Activity>, parse: string -> Option<int>, cutoff: int, a: Activity)
    ensures a in RunsInWindow(acts, parse, cutoff) <==> a in acts && IsRun(a) && StartsBy(a, parse, cutoff)
  {
    if acts != [] {
      var init := acts[..|acts| - 1];
      RunsInWindowMembers(init, parse, cutoff, a);
      assert acts == init + [acts[|acts| - 1]];
    }
  }

  /** Narrowing the context window to runs of a later-starting trigger window
      gives the same runs as the trigger window of the whole input, as the
      handlers do with seven days and twelve hours. */
  lemma {:induction false} TriggerWithinContext(acts: seq<Activity>, parse: string -> Option<int>,
                                                 contextCutoff: int, triggerCutoff: int)
    requires contextCutoff <= triggerCutoff
    ensures RunsInWindow(InWindow(acts, parse, contextCutoff), parse, triggerCutoff)
            == RunsInWindow(acts, parse, triggerCutoff)
  {
    if acts != [] {
      var init := acts[..|acts| - 1];
      var a := acts[|acts| - 1];
      TriggerWithinContext(init, parse, contextCutoff, triggerCutoff);
      var c0 := InWindow(init, parse, contextCutoff);
      if StartsBy(a, parse, contextCutoff) {
        var c := c0 + [a];
        assert InWindow(acts, parse, contextCutoff) == c;
        assert c[..|c| - 1] == c0;
        assert RunsInWindow(c, parse, triggerCutoff)
               == RunsInWindow(c0, parse, triggerCutoff)
                  + (if IsRun(a) && StartsBy(a, parse, triggerCutoff) then [a] else []);
      } else {
        assert InWindow(acts, parse, contextCutoff) == c0;
        assert !StartsBy(a, parse, triggerCutoff);
      }
    }
  }

  /** An activity starting exactly at the cutoff is kept; one second earlier is
      not. */
  lemma BoundaryInclusive(a: Activity, parse: string -> Option<int>, cutoff: int)
    requires Truthy(a.startTimeLocal)
    ensures parse(a.startTimeLocal.value) == Some(cutoff) ==> InWindow([a], parse, cutoff) == [a]
    ensures parse(a.startTimeLocal.value) == Some(cutoff - 1) ==> InWindow([a], parse, cutoff) == []
  {
    assert [a][..0] == [];
  }

  /** The running activities are exactly the runs of the list. */
  lemma {:induction false} RunsMembers(acts: seq<Activity>, a: Activity)
    ensures a in Runs(acts) <==> a in acts && IsRun(a)
  {
    if acts != [] {
      var init := acts[..|acts| - 1];
      RunsMembers(init, a);
      assert acts == init + [acts[|acts| - 1]];
    }
  }

  /** Every activity the context window keeps has a start time. */
  lemma {:induction false} InWindowStarted(acts: seq<Activity>, parse: string -> Option<int>, cutoff: int)
    ensures AllStarted(InWindow(acts, parse, cutoff))
  {
    if acts != [] {
      InWindowStarted(acts[..|acts| - 1], parse, cutoff);
    }
  }

  /** Selecting the runs keeps every start time. */
  lemma {:induction false} RunsStarted(acts: seq<Activity>)
    requires AllStarted(acts)
    ensures AllStarted(Runs(acts))
  {
    if acts != [] {
      var init := acts[..|acts| - 1];
      assert AllStarted(init) by {
        assert forall i :: 0 <= i < |init| ==> init[i] == acts[i];
      }
      RunsStarted(init);
    }
  }

  /** Every run of the trigger window is a running activity of its input. */
  lemma TriggerRunsAreRuns(acts: seq<Activity>, parse: string -> Option<int>, cutoff: int, a: Activity)
    requires a in RunsInWindow(acts, parse, cutoff)
    ensures a in Runs(acts)
  {
    RunsInWindowMembers(acts, parse, cutoff, a);
    RunsMembers(acts, a);
  }
}
