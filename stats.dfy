/** StatsView.swift: the figures the statistics window derives from the
    stored session records and task completions: today's totals, the last
    seven days, and the current and best streaks of days with completed
    work. Days are day numbers (`DayOf`); the weekday names and the hours as
    a Double are not modelled. */
module Stats {
  import opened Common
  import opened Sessions
  import opened Store

  /** A completed work session started on `day`: what the day views count. */
  predicate WorkOn(r: Record, day: int) {
    r.wasCompleted && r.sessionType == Work && DayOf(r.startTime) == day
  }

  /** The records started on `day`. */
  predicate SameDay(r: Record, day: int) {
    DayOf(r.startTime) == day
  }

  /** The completed work sessions of `day`, in store order. */
  function DayWork(rs: seq<Record>, day: int): seq<Record> {
    Filter(rs, (r: Record) => WorkOn(r, day))
  }

  /** Counting a day's completed work sessions and their focus time is what
      `ProductivityStats.addSession` does when fed that day's records. */
  lemma DayMatchesTally(rs: seq<Record>, day: int)
    ensures |DayWork(rs, day)| ==
      AddSessions(EmptyTally, Filter(rs, (r: Record) => SameDay(r, day))).completedWorkSessions
    ensures FocusTime(DayWork(rs, day)) ==
      AddSessions(EmptyTally, Filter(rs, (r: Record) => SameDay(r, day))).totalFocusTime
  {
    var onDay := Filter(rs, (r: Record) => SameDay(r, day));
    AddSessionsCounts(EmptyTally, onDay);
    FilterFilter(rs, (r: Record) => SameDay(r, day), IsCompletedWork, (r: Record) => WorkOn(r, day));
  }

  // --- todayStats ------------------------------------------------------------

  datatype Today = Today(completedWorkSessions: int, totalFocusTime: int, completedTasks: int)

  /** `todayStats`: today's completed sessions, of those the work ones and
      their summed actual durations, and today's task completions. */
  function TodayStats(rs: seq<Record>, cs: seq<Completion>, now: int): (t: Today)
    ensures 0 <= t.completedWorkSessions <= |rs| && 0 <= t.completedTasks <= |cs|
    ensures t.completedTasks == 0 <==> forall c :: c in cs ==> DayOf(c.completedAt) != DayOf(now)
  {
    var today := DayOf(now);
    var todaySessions := Filter(rs, (r: Record) => DayOf(r.startTime) == today && r.wasCompleted);
    var workSessions := Filter(todaySessions, (r: Record) => r.sessionType == Work);
    var todaysTasks := Filter(cs, (c: Completion) => DayOf(c.completedAt) == today);
    assert todaysTasks != [] ==> todaysTasks[0] in todaysTasks;
    Today(|workSessions|, FocusTime(workSessions), |todaysTasks|)
  }

  /** Today's figures count exactly the completed work sessions started
      today, agree with the daily tally fed today's records, and count
      exactly the completions stamped today, as the tally does when each
      of them is added with `addCompletedTask`. */
  lemma TodayCounts(rs: seq<Record>, cs: seq<Completion>, now: int)
    ensures TodayStats(rs, cs, now).completedWorkSessions == |DayWork(rs, DayOf(now))|
    ensures TodayStats(rs, cs, now).totalFocusTime == FocusTime(DayWork(rs, DayOf(now)))
    ensures TodayStats(rs, cs, now).completedWorkSessions ==
      AddSessions(EmptyTally, Filter(rs, (r: Record) => SameDay(r, DayOf(now)))).completedWorkSessions
    ensures TodayStats(rs, cs, now).totalFocusTime ==
      AddSessions(EmptyTally, Filter(rs, (r: Record) => SameDay(r, DayOf(now)))).totalFocusTime
    ensures TodayStats(rs, cs, now).completedTasks == AddCompletionsOn(EmptyTally, cs, DayOf(now)).completedTasks
  {
    var today := DayOf(now);
    FilterFilter(rs, (r: Record) => DayOf(r.startTime) == today && r.wasCompleted, (r: Record) => r.sessionType == Work,
                 r => WorkOn(r, today));
    DayMatchesTally(rs, today);
    CompletionsCounted(EmptyTally, cs, today);
  }

  /** `addCompletedTask` called once for each completion stamped on `day`,
      in store order. */
  function AddCompletionsOn(t: Tally, cs: seq<Completion>, day: int): Tally
    decreases |cs|
  {
    if cs == [] then t
    else AddCompletionsOn(if DayOf(cs[0].completedAt) == day then t.AddCompletedTask() else t, cs[1..], day)
  }

  /** Feeding completions to the tally adds one task per completion stamped
      on `day` and touches no other figure. */
  lemma {:induction false} CompletionsCounted(t: Tally, cs: seq<Completion>, day: int)
    ensures AddCompletionsOn(t, cs, day).completedTasks ==
      t.completedTasks + |Filter(cs, (c: Completion) => DayOf(c.completedAt) == day)|
    ensures AddCompletionsOn(t, cs, day).(completedTasks := t.completedTasks) == t
    decreases |cs|
  {
    if cs != [] {
      CompletionsCounted(if DayOf(cs[0].completedAt) == day then t.AddCompletedTask() else t, cs[1..], day);
    }
  }

  // --- weeklyData and last7Days -------------------------------------------------

  /** A `WeeklyDataPoint`: the day, its completed work sessions, and their
      focus time in milliseconds. */
  datatype WeeklyPoint = WeeklyPoint(day: int, sessions: int, focusTime: int)

  /** A `DayData` entry: the day and its completed work sessions. */
  datatype DayData = DayData(day: int, sessions: int)

  /** The point `weeklyData` shows for `day`. */
  function PointOn(rs: seq<Record>, day: int): WeeklyPoint {
    WeeklyPoint(day, |DayWork(rs, day)|, FocusTime(DayWork(rs, day)))
  }

  /** `weeklyData`: today and the six days before, collected newest first
      and returned reversed, so the oldest day comes first. */
  method WeeklyData(rs: seq<Record>, now: int) returns (data: seq<WeeklyPoint>)
    ensures |data| == 7
    ensures forall k :: 0 <= k < 7 ==> data[k] == PointOn(rs, DayOf(now) - 6 + k)
  {
    var points: seq<WeeklyPoint> := [];
    for i := 0 to 7
      invariant |points| == i
      invariant forall k :: 0 <= k < i ==> points[k] == PointOn(rs, DayOf(now) - k)
    {
      var date := now - i * MsPerDay;
      DayOfShift(now, i);
      var dayStart := DayOf(date);
      var daySessions := DayWork(rs, dayStart);
      points := points + [WeeklyPoint(dayStart, |daySessions|, FocusTime(daySessions))];
    }
    data := Reverse(points);
  }

  /** `last7Days`: the same seven days, with their session counts only. */
  method Last7Days(rs: seq<Record>, now: int) returns (data: seq<DayData>)
    ensures |data| == 7
    ensures forall k :: 0 <= k < 7 ==>
      data[k] == DayData(DayOf(now) - 6 + k, |DayWork(rs, DayOf(now) - 6 + k)|)
    ensures forall k :: SafeGet(data, k) ==
                        if 0 <= k < 7 then Some(DayData(DayOf(now) - 6 + k, |DayWork(rs, DayOf(now) - 6 + k)|)) else None
  {
    var days: seq<DayData> := [];
    for i := 0 to 7
      invariant |days| == i
      invariant forall k :: 0 <= k < i ==> days[k] == DayData(DayOf(now) - k, |DayWork(rs, DayOf(now) - k)|)
    {
      var date := now - i * MsPerDay;
      DayOfShift(now, i);
      var dayStart := DayOf(date);
      days := days + [DayData(dayStart, |DayWork(rs, dayStart)|)];
    }
    data := Reverse(days);
  }

  /** A bar of the streak chart: the day's session count, highlighted when
      it is positive. */
  datatype Bar = Bar(sessions: int, highlighted: bool)

  /** The bar at `index`: `last7Days[safe: index]`, a count of 0 standing in
      for a missing entry. */
  function BarAt(data: seq<DayData>, index: int): Bar {
    var n := match SafeGet(data, index) case Some(d) => d.sessions case None => 0;
    Bar(n, n > 0)
  }

  /** The streak chart: bars for the indices 0 through 6 of `last7Days`.
      Every index is in range, so each bar shows its day's completed work
      sessions, oldest day first, and is highlighted exactly when that day
      has some. */
  method StreakBars(rs: seq<Record>, now: int) returns (bars: seq<Bar>)
    ensures |bars| == 7
    ensures forall k :: 0 <= k < 7 ==>
      bars[k] == Bar(|DayWork(rs, DayOf(now) - 6 + k)|, |DayWork(rs, DayOf(now) - 6 + k)| > 0)
  {
    var data := Last7Days(rs, now);
    bars := [];
    for index := 0 to 7
      invariant |bars| == index
      invariant forall k :: 0 <= k < index ==>
        bars[k] == Bar(|DayWork(rs, DayOf(now) - 6 + k)|, |DayWork(rs, DayOf(now) - 6 + k)| > 0)
    {
      bars := bars + [BarAt(data, index)];
    }
  }

  /** The last point of the week is today, with today's figures. */
  lemma WeekEndsToday(rs: seq<Record>, cs: seq<Completion>, now: int)
    ensures PointOn(rs, DayOf(now)).sessions == TodayStats(rs, cs, now).completedWorkSessions
    ensures PointOn(rs, DayOf(now)).focusTime == TodayStats(rs, cs, now).totalFocusTime
  {
    TodayCounts(rs, cs, now);
  }

  // --- currentStreak ----------------------------------------------------------------

  /** The `contains` test of `currentStreak`: a completed work session
      started on `day`. */
  predicate HasWork(rs: seq<Record>, day: int) {
    exists r :: r in rs && WorkOn(r, day)
  }

  /** A day no record starts before. */
  function LowestDay(rs: seq<Record>): (m: int)
    ensures forall r :: r in rs ==> m <= DayOf(r.startTime)
    decreases |rs|
  {
    if rs == [] then 0
    else
      var rest := LowestDay(rs[1..]);
      var d := DayOf(rs[0].startTime);
      assert forall r :: r in rs ==> r == rs[0] || r in rs[1..];
      if d < rest then d else rest
  }

  /** `currentStreak`: walks back a day at a time from today while the day
      has a completed work session. The result is the number of such days
      in a row ending today, so 0 when today has none. */
  method CurrentStreak(rs: seq<Record>, now: int) returns (streak: int)
    ensures streak >= 0
    ensures forall d :: DayOf(now) - streak < d <= DayOf(now) ==> HasWork(rs, d)
    ensures !HasWork(rs, DayOf(now) - streak)
  {
    streak := 0;
    var currentDate := now;
    while HasWork(rs, DayOf(currentDate))
      invariant streak >= 0 && DayOf(currentDate) == DayOf(now) - streak
      invariant forall d :: DayOf(now) - streak < d <= DayOf(now) ==> HasWork(rs, d)
      decreases DayOf(currentDate) - LowestDay(rs)
    {
      streak := streak + 1;
      DayOfShift(currentDate, 1);
      currentDate := currentDate - MsPerDay;
    }
  }

  // --- bestStreak -------------------------------------------------------------------

  predicate Increasing(ds: seq<int>) {
    forall i, j :: 0 <= i < j < |ds| ==> ds[i] < ds[j]
  }

  /** `ds` with `d` added, kept strictly increasing. */
  function InsertDay(ds: seq<int>, d: int): seq<int>
    decreases |ds|
  {
    if ds == [] then [d]
    else if d < ds[0] then [d] + ds
    else if d == ds[0] then ds
    else [ds[0]] + InsertDay(ds[1..], d)
  }

  lemma {:induction false} InsertDayKeeps(ds: seq<int>, d: int)
    requires Increasing(ds)
    ensures Increasing(InsertDay(ds, d))
    ensures forall x :: x in InsertDay(ds, d) <==> x in ds || x == d
    decreases |ds|
  {
    if ds != [] && d > ds[0] {
      InsertDayKeeps(ds[1..], d);
      var r := InsertDay(ds, d);
      assert r == [ds[0]] + InsertDay(ds[1..], d);
      assert forall x :: x in ds <==> x == ds[0] || x in ds[1..];
      forall i, j | 0 <= i < j < |r|
        ensures r[i] < r[j]
      {
        if i == 0 {
          assert r[j] in InsertDay(ds[1..], d);
          assert r[j] in ds[1..] || r[j] == d;
        }
      }
    }
  }

  /** `Set(...).sorted()` of the days of the completed work sessions. */
  function WorkDays(rs: seq<Record>): seq<int>
    decreases |rs|
  {
    if rs == [] then []
    else if IsCompletedWork(rs[0]) then InsertDay(WorkDays(rs[1..]), DayOf(rs[0].startTime))
    else WorkDays(rs[1..])
  }

  /** The work days are strictly increasing and are exactly the days with a
      completed work session. */
  lemma {:induction false} WorkDaysSpec(rs: seq<Record>)
    ensures Increasing(WorkDays(rs))
    ensures forall d :: d in WorkDays(rs) <==> HasWork(rs, d)
    decreases |rs|
  {
    if rs != [] {
      WorkDaysSpec(rs[1..]);
      if IsCompletedWork(rs[0]) {
        InsertDayKeeps(WorkDays(rs[1..]), DayOf(rs[0].startTime));
      }
      forall d
        ensures HasWork(rs, d) <==> HasWork(rs[1..], d) || WorkOn(rs[0], d)
      {
        if HasWork(rs, d) {
          var r :| r in rs && WorkOn(r, d);
          if r != rs[0] {
            assert r in rs[1..];
          }
        }
        if HasWork(rs[1..], d) {
          var r :| r in rs[1..] && WorkOn(r, d);
          assert r in rs;
        }
        if WorkOn(rs[0], d) {
          assert rs[0] in rs;
        }
      }
    }
  }

  /** Each day from day i to day j is one after the one before. */
  predicate Consecutive(ds: seq<int>, i: int, j: int)
    requires 0 <= i <= j < |ds|
  {
    forall k :: i <= k < j ==> ds[k + 1] == ds[k] + 1
  }

  /** The length of the run of consecutive days that ends at index i; the
      counter of `bestStreak` after that step. */
  function RunEndingAt(ds: seq<int>, i: nat): nat
    requires i < |ds|
  {
    if i == 0 then 1
    else if ds[i - 1] + 1 == ds[i] then RunEndingAt(ds, i - 1) + 1
    else 1
  }

  /** The longest run ending at one of the first n indices. */
  function LongestRun(ds: seq<int>, n: nat): nat
    requires n <= |ds|
  {
    if n == 0 then 0
    else
      var r := RunEndingAt(ds, n - 1);
      var m := LongestRun(ds, n - 1);
      if r > m then r else m
  }

  /** The run ending at j is indeed a run, and no run ending at j is longer. */
  lemma {:induction false} RunEndingAtIsLongest(ds: seq<int>, i: nat, j: nat)
    requires i <= j < |ds|
    ensures RunEndingAt(ds, j) <= j + 1
    ensures Consecutive(ds, j + 1 - RunEndingAt(ds, j), j)
    ensures Consecutive(ds, i, j) ==> j - i + 1 <= RunEndingAt(ds, j)
    decreases j
  {
    if j > 0 {
      if ds[j - 1] + 1 == ds[j] {
        if i < j {
          RunEndingAtIsLongest(ds, i, j - 1);
        } else {
          RunEndingAtIsLongest(ds, j - 1, j - 1);
        }
      }
    }
  }

  /** A run longest among the first n indices: it bounds every run there and
      is attained by one; it is 0 only when n is. */
  lemma {:induction false} LongestRunSpec(ds: seq<int>, n: nat)
    requires n <= |ds|
    ensures n > 0 ==> LongestRun(ds, n) >= 1
    ensures n == 0 ==> LongestRun(ds, n) == 0
    ensures forall i, j :: 0 <= i <= j < n && Consecutive(ds, i, j) ==> j - i + 1 <= LongestRun(ds, n)
    ensures n > 0 ==> exists j :: 0 <= j < n && RunEndingAt(ds, j) == LongestRun(ds, n)
    decreases n
  {
    if n > 0 {
      LongestRunSpec(ds, n - 1);
      forall i, j | 0 <= i <= j < n && Consecutive(ds, i, j)
        ensures j - i + 1 <= LongestRun(ds, n)
      {
        RunEndingAtIsLongest(ds, i, j);
      }
      if RunEndingAt(ds, n - 1) > LongestRun(ds, n - 1) {
        assert RunEndingAt(ds, n - 1) == LongestRun(ds, n);
      }
    }
  }

  /** `bestStreak`: 0 without completed work; otherwise the counter starts at
      1, grows across each one-day step of the sorted days and falls back to
      1 at a gap, and the largest value it reaches is returned. */
  method BestStreak(rs: seq<Record>) returns (best: int)
    ensures best == LongestRun(WorkDays(rs), |WorkDays(rs)|)
  {
    var sessionDates := WorkDays(rs);
    if |sessionDates| == 0 {
      return 0;
    }
    var maxStreak := 1;
    var currentStreakCount := 1;
    for i := 1 to |sessionDates|
      invariant currentStreakCount == RunEndingAt(sessionDates, i - 1)
      invariant maxStreak == LongestRun(sessionDates, i)
    {
      if sessionDates[i - 1] + 1 == sessionDates[i] {
        currentStreakCount := currentStreakCount + 1;
        maxStreak := Max(maxStreak, currentStreakCount);
      } else {
        currentStreakCount := 1;
      }
    }
    best := maxStreak;
  }

  /** `bestStreak` is 0 exactly when there is no completed work session. */
  lemma BestStreakZero(rs: seq<Record>)
    ensures LongestRun(WorkDays(rs), |WorkDays(rs)|) == 0 <==> forall r :: r in rs ==> !IsCompletedWork(r)
  {
    var ds := WorkDays(rs);
    WorkDaysSpec(rs);
    LongestRunSpec(ds, |ds|);
    if exists r :: r in rs && IsCompletedWork(r) {
      var r :| r in rs && IsCompletedWork(r);
      assert WorkOn(r, DayOf(r.startTime));
      assert DayOf(r.startTime) in ds;
    } else if |ds| > 0 {
      assert HasWork(rs, ds[0]);
    }
  }

  /** `bestStreak` is at least the length of every run of consecutive work
      days. */
  lemma BestStreakBounds(rs: seq<Record>, i: int, j: int)
    requires 0 <= i <= j < |WorkDays(rs)| && Consecutive(WorkDays(rs), i, j)
    ensures j - i + 1 <= LongestRun(WorkDays(rs), |WorkDays(rs)|)
  {
    LongestRunSpec(WorkDays(rs), |WorkDays(rs)|);
  }

  /** With any work at all, `bestStreak` is the length of one such run. */
  lemma BestStreakAttained(rs: seq<Record>)
    requires |WorkDays(rs)| > 0
    ensures exists i, j ::
      0 <= i <= j < |WorkDays(rs)| && Consecutive(WorkDays(rs), i, j) &&
      j - i + 1 == LongestRun(WorkDays(rs), |WorkDays(rs)|)
  {
    var ds := WorkDays(rs);
    LongestRunSpec(ds, |ds|);
    var j :| 0 <= j < |ds| && RunEndingAt(ds, j) == LongestRun(ds, |ds|);
    RunEndingAtIsLongest(ds, j, j);
    assert Consecutive(ds, j + 1 - RunEndingAt(ds, j), j);
  }

  /** Two adjacent days both present in a strictly increasing list sit at
      adjacent indices. */
  lemma NextDayNextIndex(ds: seq<int>, i: int, j: int)
    requires Increasing(ds) && 0 <= i < |ds| && 0 <= j < |ds| && ds[j] == ds[i] + 1
    ensures j == i + 1
  {
    if j > i {
      GapAtLeast(ds, i, j);
    }
  }

  /** In a strictly increasing list of days, values grow at least as fast as
      indices. */
  lemma {:induction false} GapAtLeast(ds: seq<int>, i: int, j: int)
    requires Increasing(ds) && 0 <= i <= j < |ds|
    ensures ds[j] >= ds[i] + (j - i)
    decreases j - i
  {
    if i < j {
      GapAtLeast(ds, i, j - 1);
      assert ds[j - 1] < ds[j];
    }
  }

  /** `streak` days of work in a row ending on day `e` make a run at least
      that long, so the current streak never exceeds the best streak. */
  lemma StreakWithinBest(rs: seq<Record>, e: int, streak: int)
    requires streak >= 0
    requires forall d :: e - streak < d <= e ==> HasWork(rs, d)
    ensures streak <= LongestRun(WorkDays(rs), |WorkDays(rs)|)
  {
    var ds := WorkDays(rs);
    WorkDaysSpec(rs);
    LongestRunSpec(ds, |ds|);
    if streak > 0 {
      assert HasWork(rs, e - streak + 1);
      var i :| 0 <= i < |ds| && ds[i] == e - streak + 1;
      RunFromDay(ds, i, streak, e);
    }
  }

  /** From index i, the days ds[i], ds[i] + 1, ..., e all present form a run
      of consecutive indices of that length. */
  lemma {:induction false} RunFromDay(ds: seq<int>, i: int, streak: int, e: int)
    requires Increasing(ds) && 0 <= i < |ds| && streak >= 1 && ds[i] == e - streak + 1
    requires forall d :: e - streak < d <= e ==> d in ds
    ensures i + streak - 1 < |ds| && Consecutive(ds, i, i + streak - 1)
    decreases streak
  {
    if streak > 1 {
      assert ds[i] + 1 in ds;
      var j :| 0 <= j < |ds| && ds[j] == ds[i] + 1;
      NextDayNextIndex(ds, i, j);
      RunFromDay(ds, i + 1, streak - 1, e);
    }
  }
}
