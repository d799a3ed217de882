/** What the timer's commands promise, proved about the functions of
    TimerSpec that the class in module Timer follows. */
module TimerProperties {
  import opened Common
  import opened Sessions
  import opened TimerSpec

  // --- Comparing states ----------------------------------------------------------

  /** The seven settings agree. */
  predicate SameSettings(a: TimerState, b: TimerState) {
    && a.workDuration == b.workDuration
    && a.breakDuration == b.breakDuration
    && a.longBreakDuration == b.longBreakDuration
    && a.autoStartBreaks == b.autoStartBreaks
    && a.autoStartWork == b.autoStartWork
    && a.sessionsUntilLongBreak == b.sessionsUntilLongBreak
    && a.notificationsEnabled == b.notificationsEnabled
  }

  /** The two daily counters agree. */
  predicate SameDaily(a: TimerState, b: TimerState) {
    a.completedSessions == b.completedSessions && a.workSessionsCompleted == b.workSessionsCompleted
  }

  /** The master-session start and figures agree. */
  predicate SameMaster(a: TimerState, b: TimerState) {
    && a.masterSessionStartTime == b.masterSessionStartTime
    && a.masterSessionWorkSessions == b.masterSessionWorkSessions
    && a.masterSessionBreakSessions == b.masterSessionBreakSessions
    && a.masterSessionTotalFocusTime == b.masterSessionTotalFocusTime
  }

  // --- start, pause, toggle ---------------------------------------------------------

  /** `start()` on a running timer changes nothing. On a stopped one it runs,
      unpaused, from `now`; it begins the master session only if none was
      begun; it keeps a held record and otherwise opens one of the current
      kind for the remaining time and the current task; the countdown, the
      kind, the counters and the settings stay as they were. */
  lemma StartEffect(v: TimerState, now: int)
    requires WellFormed(v)
    ensures v.isRunning ==> Start(v, now) == v
    ensures !v.isRunning ==>
      var s := Start(v, now);
      && s.isRunning && !s.isPaused && s.sessionStartTime == Some(now)
      && (v.masterSessionStartTime.Some? ==> s.masterSessionStartTime == v.masterSessionStartTime)
      && (v.masterSessionStartTime.None? ==> s.masterSessionStartTime == Some(now))
      && (v.currentSession.Some? ==> s.currentSession == v.currentSession)
      && (v.currentSession.None? ==>
            s.currentSession.Some? && s.currentSession.value.IsOpen() &&
            s.currentSession.value.startTime == now &&
            s.currentSession.value.duration == v.remaining &&
            (s.currentSession.value.sessionType == Work <==> !v.isBreakTime) &&
            s.currentSession.value.taskTitle == TaskTitle(v.currentTask))
      && s.remaining == v.remaining && s.isBreakTime == v.isBreakTime
      && s.currentTask == v.currentTask
      && SameDaily(s, v) && SameSettings(s, v)
      && s.masterSessionWorkSessions == v.masterSessionWorkSessions
      && s.masterSessionBreakSessions == v.masterSessionBreakSessions
      && s.masterSessionTotalFocusTime == v.masterSessionTotalFocusTime
  {
  }

  /** `pause()` stops the timer, marks it paused and drops the start time;
      apart from the saved defaults nothing else changes. */
  lemma PauseEffect(v: TimerState)
    ensures !Pause(v).isRunning && Pause(v).isPaused && Pause(v).sessionStartTime.None?
    ensures Pause(v).(isRunning := v.isRunning, isPaused := v.isPaused,
                      sessionStartTime := v.sessionStartTime, defaults := v.defaults) == v
    ensures Pause(v).defaults.isRunning == Some(false) && Pause(v).defaults.remaining == Some(v.remaining)
  {
  }

  /** Pausing twice is pausing once. */
  lemma PauseIdempotent(v: TimerState)
    ensures Pause(Pause(v)) == Pause(v)
  {
  }

  /** `toggle()` alternates: a running timer ends paused, a stopped one ends
      running. */
  lemma ToggleFlips(v: TimerState, now: int)
    requires WellFormed(v)
    ensures Toggle(v, now).isRunning == !v.isRunning
    ensures v.isRunning ==> Toggle(v, now).isPaused
    ensures !v.isRunning ==> !Toggle(v, now).isPaused
  {
  }

  // --- reset, skipBreak, endMasterSession ---------------------------------------------

  /** The record, if any, is handed to the store marked interrupted at
      `now`; an open record is not also marked completed. */
  lemma InterruptedRecords(v: TimerState, now: int)
    ensures |Interrupted(v, now)| == (if v.currentSession.Some? then 1 else 0)
    ensures forall r :: r in Interrupted(v, now) ==>
      r.wasInterrupted && r.endTime == Some(now) &&
      r.startTime == v.currentSession.value.startTime &&
      r.sessionType == v.currentSession.value.sessionType &&
      (v.currentSession.value.IsOpen() ==> !r.wasCompleted)
  {
  }

  /** The record, if any, is handed to the store marked completed at `now`;
      an open record is not also marked interrupted. */
  lemma CompletedRecords(v: TimerState, now: int)
    ensures |Completed(v, now)| == (if v.currentSession.Some? then 1 else 0)
    ensures forall r :: r in Completed(v, now) ==>
      r.wasCompleted && r.endTime == Some(now) &&
      r.startTime == v.currentSession.value.startTime &&
      r.sessionType == v.currentSession.value.sessionType &&
      (v.currentSession.value.IsOpen() ==> !r.wasInterrupted)
  {
  }

  /** `reset()` leaves the timer neither running nor paused, without a
      record or a start time, with the full length of the current kind left
      (long break, short break or work); the kind, the counters, the master
      session and the settings are kept. */
  lemma ResetEffect(v: TimerState, now: int)
    requires WellFormed(v)
    ensures var r := Reset(v, now);
      && !r.isRunning && !r.isPaused
      && r.currentSession.None? && r.sessionStartTime.None?
      && r.remaining == (if !v.isBreakTime then v.workDuration
                         else if ShouldUseLongBreak(v) then v.longBreakDuration
                         else v.breakDuration)
      && r.isBreakTime == v.isBreakTime
      && SameDaily(r, v) && SameMaster(r, v) && SameSettings(r, v)
      && r.currentTask == v.currentTask
  {
  }

  /** `skipBreak()` outside a break changes nothing. During a break it counts
      one master break, switches to work with the full work length, and
      opens a work record for the current task; whether the timer runs or is
      paused is kept, and so are the daily counters and the settings. */
  lemma SkipBreakEffect(v: TimerState, now: int)
    ensures !v.isBreakTime ==> SkipBreak(v, now) == v
    ensures v.isBreakTime ==>
      var s := SkipBreak(v, now);
      && s.masterSessionBreakSessions == v.masterSessionBreakSessions + 1
      && !s.isBreakTime && s.remaining == v.workDuration
      && s.currentSession == Some(Opened(now, v.workDuration, Work, TaskId(v.currentTask), TaskTitle(v.currentTask)))
      && s.isRunning == v.isRunning && s.isPaused == v.isPaused
      && s.sessionStartTime == v.sessionStartTime
      && s.masterSessionStartTime == v.masterSessionStartTime
      && s.masterSessionWorkSessions == v.masterSessionWorkSessions
      && s.masterSessionTotalFocusTime == v.masterSessionTotalFocusTime
      && SameDaily(s, v) && SameSettings(s, v)
  {
  }

  /** `endMasterSession()` reports the master figures as they stood before
      the call and then leaves an idle timer: no master session, no record,
      not running, not paused, on work with the full work length; the daily
      counters and the settings are kept. */
  lemma EndMasterSessionEffect(v: TimerState, now: int)
    ensures EndSummary(v, now).workSessions == v.masterSessionWorkSessions
    ensures EndSummary(v, now).breakSessions == v.masterSessionBreakSessions
    ensures EndSummary(v, now).totalFocusTime == v.masterSessionTotalFocusTime
    ensures EndSummary(v, now).duration ==
      (if v.masterSessionStartTime.Some? then now - v.masterSessionStartTime.value else 0)
    ensures var e := EndMasterSession(v, now);
      && e.masterSessionStartTime.None? && e.masterSessionWorkSessions == 0
      && e.masterSessionBreakSessions == 0 && e.masterSessionTotalFocusTime == 0
      && e.currentSession.None? && e.sessionStartTime.None?
      && !e.isRunning && !e.isPaused && !e.isBreakTime
      && e.remaining == v.workDuration
      && SameDaily(e, v) && SameSettings(e, v) && e.currentTask == v.currentTask
  {
  }

  // --- setQuickBreak, setCurrentTask, setDurations -------------------------------------

  /** `setQuickBreak(m)` runs a break of m minutes from `now` with a fresh
      short-break record bound to no task, and leaves the master session,
      the daily counters and the settings alone. */
  lemma QuickBreakEffect(v: TimerState, minutes: int, now: int)
    ensures var q := SetQuickBreak(v, minutes, now);
      && q.isBreakTime && q.remaining == minutes * 60 * MsPerSecond
      && q.isRunning && !q.isPaused && q.sessionStartTime == Some(now)
      && q.currentSession == Some(Opened(now, minutes * MsPerMinute, ShortBreak, None, None))
      && SameMaster(q, v) && SameDaily(q, v) && SameSettings(q, v)
      && q.currentTask == v.currentTask
      && q.defaults == v.defaults.(remaining := Some(minutes * MsPerMinute), isRunning := Some(true))
  {
  }

  /** `setCurrentTask(t)` binds `t`; an open work record takes over the new
      task's identifier and title, a break record is left as it was. */
  lemma SetCurrentTaskEffect(v: TimerState, t: Option<TaskTag>)
    ensures var s := SetCurrentTask(v, t);
      && s.currentTask == t
      && s.(currentTask := v.currentTask, currentSession := v.currentSession) == v
      && (v.currentSession.Some? && v.currentSession.value.sessionType == Work ==>
            s.currentSession.Some? &&
            s.currentSession.value.taskId == TaskId(t) &&
            s.currentSession.value.taskTitle == TaskTitle(t) &&
            s.currentSession.value.(taskId := v.currentSession.value.taskId,
                                    taskTitle := v.currentSession.value.taskTitle) == v.currentSession.value)
      && (v.currentSession.None? || v.currentSession.value.sessionType != Work ==>
            s.currentSession == v.currentSession)
  {
  }

  /** `setDurations` stores the new lengths (the long break only when given)
      and saves them; a stopped timer is put back to the start of a work
      session, a running one keeps its countdown and kind. The held record
      keeps its own duration either way. */
  lemma SetDurationsEffect(v: TimerState, work: int, brk: int, longBreak: Option<int>)
    ensures var s := SetDurations(v, work, brk, longBreak);
      && s.workDuration == work && s.breakDuration == brk
      && s.longBreakDuration == (if longBreak.Some? then longBreak.value else v.longBreakDuration)
      && s.defaults.workDuration == Some(work) && s.defaults.breakDuration == Some(brk)
      && s.currentSession == v.currentSession && s.isRunning == v.isRunning
      && (!v.isRunning ==> !s.isBreakTime && s.remaining == work && !s.isPaused)
      && (v.isRunning ==> s.isBreakTime == v.isBreakTime && s.remaining == v.remaining && s.isPaused == v.isPaused)
      && SameDaily(s, v) && SameMaster(s, v)
  {
  }

  // --- The long-break rule ------------------------------------------------------------------

  /** The number of long breaks among the breaks after work completions
      1 through n, under the rule of `shouldUseLongBreak()`. */
  function LongBreaksIn(n: nat, cycle: int): nat
    requires cycle > 0
  {
    if n == 0 then 0 else LongBreaksIn(n - 1, cycle) + (if n % cycle == 0 then 1 else 0)
  }

  /** Exactly every `cycle`-th break is long: n completions bring n / cycle
      long breaks. */
  lemma {:induction false} LongBreaksCount(n: nat, cycle: int)
    requires cycle > 0
    ensures LongBreaksIn(n, cycle) == n / cycle
  {
    if n > 0 {
      LongBreaksCount(n - 1, cycle);
      DivStep(n, cycle);
    }
  }

  /** One more completion adds a long break exactly when it closes a cycle. */
  lemma LongBreaksInStep(done: nat, cycle: int)
    requires cycle > 0
    ensures LongBreaksIn(done + 1, cycle) == LongBreaksIn(done, cycle) + (if (done + 1) % cycle == 0 then 1 else 0)
  {
  }

  /** Completing a session keeps the cycle length, so the timer stays well formed. */
  lemma CompletedKeepsCycle(v: TimerState, now: int, swept: bool)
    requires WellFormed(v)
    ensures SessionCompleted(v, now, swept).sessionsUntilLongBreak == v.sessionsUntilLongBreak
  {
    if v.isBreakTime {
      BreakCompletedEffect(v, now, swept);
    } else {
      WorkCompletedEffect(v, now, swept);
    }
  }

  /** The long breaks the timer itself picks over `n` rounds from `v`, a
      round being a completed work session followed by its completed break. */
  function LongBreaksPicked(v: TimerState, n: nat, now: int, swept: bool): nat
    requires WellFormed(v)
    decreases n
  {
    if n == 0 then 0
    else
      CompletedKeepsCycle(v, now, swept);
      var w := SessionCompleted(v, now, swept);
      CompletedKeepsCycle(w, now, swept);
      (if BreakType(w) == LongBreak then 1 else 0) + LongBreaksPicked(SessionCompleted(w, now, swept), n - 1, now, swept)
  }

  /** Over `n` rounds starting from work, the timer picks as many long breaks
      as the rule counts among the work completions it passes through. */
  lemma {:induction false} LongBreaksPickedCount(v: TimerState, n: nat, now: int, swept: bool)
    requires WellFormed(v) && !v.isBreakTime && v.workSessionsCompleted >= 0
    ensures LongBreaksPicked(v, n, now, swept) ==
      LongBreaksIn(v.workSessionsCompleted + n, v.sessionsUntilLongBreak) -
      LongBreaksIn(v.workSessionsCompleted, v.sessionsUntilLongBreak)
    decreases n
  {
    if n > 0 {
      var cycle, done := v.sessionsUntilLongBreak, v.workSessionsCompleted;
      RoundStep(v, now, swept);
      var w := SessionCompleted(v, now, swept);
      LongBreaksPickedCount(SessionCompleted(w, now, swept), n - 1, now, swept);
      LongBreaksInStep(done, cycle);
    }
  }

  /** One round from work: the break picked is long exactly when the new
      work count closes a cycle, and the round ends at work again with one
      more work session counted and the same cycle. */
  lemma RoundStep(v: TimerState, now: int, swept: bool)
    requires WellFormed(v) && !v.isBreakTime
    ensures var w := SessionCompleted(v, now, swept);
      && WellFormed(w)
      && (BreakType(w) == LongBreak <==>
            v.workSessionsCompleted + 1 > 0 && (v.workSessionsCompleted + 1) % v.sessionsUntilLongBreak == 0)
      && var b := SessionCompleted(w, now, swept);
      && !b.isBreakTime
      && b.workSessionsCompleted == v.workSessionsCompleted + 1
      && b.sessionsUntilLongBreak == v.sessionsUntilLongBreak
  {
    WorkCompletedEffect(v, now, swept);
    BreakCompletedEffect(SessionCompleted(v, now, swept), now, swept);
  }

  /** From a fresh day (no work completed yet), n rounds of work and break
      bring exactly n / sessionsUntilLongBreak long breaks: every cycle-th
      break is long and no other. */
  lemma EveryCycleEndsLong(v: TimerState, n: nat, now: int, swept: bool)
    requires WellFormed(v) && !v.isBreakTime && v.workSessionsCompleted == 0
    ensures LongBreaksPicked(v, n, now, swept) == n / v.sessionsUntilLongBreak
  {
    LongBreaksPickedCount(v, n, now, swept);
    LongBreaksCount(n, v.sessionsUntilLongBreak);
  }

  /** A completed work session first counts itself (daily, per-cycle and
      master counters up by one, the task's pomodoros up by one, the focus
      time up by the record's span) and only then picks the break: long
      exactly when the new count is a positive multiple of the cycle. The
      break runs on with a fresh record of its kind and length when breaks
      start automatically; otherwise the timer pauses without a record. */
  lemma WorkCompletedEffect(v: TimerState, now: int, swept: bool)
    requires WellFormed(v) && !v.isBreakTime
    ensures var c := SessionCompleted(v, now, swept);
      var long := v.workSessionsCompleted + 1 > 0 && (v.workSessionsCompleted + 1) % v.sessionsUntilLongBreak == 0;
      && c.workSessionsCompleted == v.workSessionsCompleted + 1
      && c.completedSessions == v.completedSessions + 1
      && c.masterSessionWorkSessions == v.masterSessionWorkSessions + 1
      && c.masterSessionBreakSessions == v.masterSessionBreakSessions
      && c.masterSessionTotalFocusTime == v.masterSessionTotalFocusTime +
           (if v.currentSession.Some? then now - v.currentSession.value.startTime else 0)
      && (!swept && v.currentTask.Some? ==>
            c.currentTask == Some(v.currentTask.value.(actualPomodoros := v.currentTask.value.actualPomodoros + 1)))
      && (swept ==> c.currentTask.None?)
      && c.isBreakTime
      && c.remaining == (if long then v.longBreakDuration else v.breakDuration)
      && (v.autoStartBreaks ==>
            c.currentSession == Some(Opened(now, c.remaining, if long then LongBreak else ShortBreak, None, None)) &&
            c.sessionStartTime == Some(now) && c.isRunning == v.isRunning && c.isPaused == v.isPaused)
      && (!v.autoStartBreaks ==>
            c.currentSession.None? && c.sessionStartTime.None? && !c.isRunning && c.isPaused)
      && c.defaults.lastSessionDate == Some(now)
      && SameSettings(c, v)
  {
  }

  /** A completed break counts one master break and switches to work of the
      full work length; work runs on with a fresh record for the current
      task when it starts automatically, otherwise the timer pauses without
      a record. The daily counters are not touched. */
  lemma BreakCompletedEffect(v: TimerState, now: int, swept: bool)
    requires WellFormed(v) && v.isBreakTime
    ensures var c := SessionCompleted(v, now, swept);
      && c.masterSessionBreakSessions == v.masterSessionBreakSessions + 1
      && c.masterSessionWorkSessions == v.masterSessionWorkSessions
      && c.masterSessionTotalFocusTime == v.masterSessionTotalFocusTime
      && !c.isBreakTime && c.remaining == v.workDuration
      && SameDaily(c, v)
      && (v.autoStartWork ==>
            c.currentSession == Some(Opened(now, v.workDuration, Work, TaskId(c.currentTask), TaskTitle(c.currentTask))) &&
            c.sessionStartTime == Some(now) && c.isRunning == v.isRunning)
      && (!v.autoStartWork ==>
            c.currentSession.None? && c.sessionStartTime.None? && !c.isRunning && c.isPaused)
      && c.defaults.lastSessionDate == Some(now)
      && SameSettings(c, v)
  {
  }

  // --- Ticks ------------------------------------------------------------------------------

  /** A tick with a start time measures `max(0, duration - elapsed)`, which
      is never negative nor more than the duration once time has passed.
      Short of completion, `remaining` takes that value when it moved by at
      least 0.1 s and the state is untouched otherwise; the session completes
      exactly when at most 0.1 s is left. */
  lemma TickTracks(v: TimerState, now: int, swept: bool)
    requires WellFormed(v) && v.sessionStartTime.Some?
    ensures var nr := NewRemaining(v, v.sessionStartTime.value, now);
      && nr >= 0
      && (now >= v.sessionStartTime.value && CurrentDuration(v) >= 0 ==> nr <= CurrentDuration(v))
      && (TickCompletes(v, now) <==> nr <= CompletionTolerance)
      && (!TickCompletes(v, now) ==>
            if Abs(v.remaining - nr) >= UpdateThreshold then Tick(v, now, swept) == StateSaved(v.(remaining := nr))
            else Tick(v, now, swept) == v)
      && (TickCompletes(v, now) ==> Tick(v, now, swept) == SessionCompleted(Tracked(v, v.sessionStartTime.value, now), now, swept))
  {
  }

  /** Without a start time a tick takes a second off while time is left,
      and completes the session otherwise. */
  lemma TickFallback(v: TimerState, now: int, swept: bool)
    requires WellFormed(v) && v.sessionStartTime.None?
    ensures v.remaining > 0 ==> Tick(v, now, swept).remaining == v.remaining - MsPerSecond
    ensures v.remaining > 0 ==> Tick(v, now, swept).(remaining := v.remaining, defaults := v.defaults) == v
    ensures v.remaining <= 0 ==> Tick(v, now, swept) == SessionCompleted(v, now, swept)
  {
  }

  // --- Consistency is kept by every command --------------------------------------------

  lemma ConsistentInitial(d: Defaults, now: int)
    ensures Consistent(Initial(d, now))
    ensures !Initial(d, now).isRunning && !Initial(d, now).isPaused && !Initial(d, now).isBreakTime
  {
  }

  lemma ConsistentStart(v: TimerState, now: int)
    requires Consistent(v)
    ensures Consistent(Start(v, now))
  {
  }

  lemma ConsistentPause(v: TimerState)
    requires Consistent(v)
    ensures Consistent(Pause(v))
  {
  }

  lemma ConsistentToggle(v: TimerState, now: int)
    requires Consistent(v)
    ensures Consistent(Toggle(v, now))
  {
  }

  lemma ConsistentReset(v: TimerState, now: int)
    requires Consistent(v)
    ensures Consistent(Reset(v, now))
  {
  }

  lemma ConsistentSkipBreak(v: TimerState, now: int)
    requires Consistent(v)
    ensures Consistent(SkipBreak(v, now))
  {
  }

  lemma ConsistentEndMasterSession(v: TimerState, now: int)
    requires Consistent(v)
    ensures Consistent(EndMasterSession(v, now))
  {
  }

  lemma ConsistentSetCurrentTask(v: TimerState, t: Option<TaskTag>)
    requires Consistent(v)
    ensures Consistent(SetCurrentTask(v, t))
  {
  }

  lemma ConsistentSettings(v: TimerState, work: int, brk: int, longBreak: Option<int>, breaks: bool, auto: bool, enabled: bool, n: int)
    requires Consistent(v) && n > 0
    ensures Consistent(SetDurations(v, work, brk, longBreak))
    ensures Consistent(SetAutoStart(v, breaks, auto))
    ensures Consistent(SetNotifications(v, enabled))
    ensures Consistent(SetSessionsUntilLongBreak(v, n))
  {
  }

  lemma ConsistentQuickBreak(v: TimerState, minutes: int, now: int)
    requires Consistent(v)
    ensures Consistent(SetQuickBreak(v, minutes, now))
  {
  }

  /** The tick handler only fires while running; from a consistent state a
      tick leaves a consistent state, whether it completes or not. */
  lemma ConsistentTick(v: TimerState, now: int, swept: bool)
    requires Consistent(v) && v.isRunning
    ensures Consistent(Tick(v, now, swept))
  {
    var start := v.sessionStartTime.value;
    var u := Tracked(v, start, now);
    assert Consistent(u) && u.isRunning;
    if TickCompletes(v, now) {
      SessionCompletedConsistent(u, now, swept);
    }
  }

  /** A session completed while running leaves either a running timer with
      a fresh open record or a paused one with none. */
  lemma SessionCompletedConsistent(v: TimerState, now: int, swept: bool)
    requires Consistent(v) && v.isRunning
    ensures Consistent(SessionCompleted(v, now, swept))
    ensures SessionCompleted(v, now, swept).isRunning ==
      (if v.isBreakTime then v.autoStartWork else v.autoStartBreaks)
  {
  }

  // --- Persistence --------------------------------------------------------------------------

  /** Settings saved with positive lengths and cycle are read back by the
      next launch exactly. */
  lemma SettingsRoundTrip(v: TimerState, now: int)
    requires v.workDuration > 0 && v.breakDuration > 0 && v.longBreakDuration > 0
    requires v.sessionsUntilLongBreak > 0
    ensures SameSettings(Initial(SettingsSaved(v).defaults, now), v)
  {
  }

  /** A stored value that is not positive is read back as the default. */
  lemma NonPositiveReloadsDefault(d: Defaults, now: int)
    requires d.workDuration.Some? && d.workDuration.value <= 0
    ensures Initial(d, now).workDuration == DefaultDuration
    ensures Initial(d, now).remaining == DefaultDuration
  {
  }

  /** The next launch starts on work with the full work length whatever
      remaining time, running flag and break flag were saved. */
  lemma SavedProgressNotRestored(v: TimerState, now: int)
    ensures var i := Initial(StateSaved(v).defaults, now);
      !i.isRunning && !i.isBreakTime && i.remaining == i.workDuration && i.currentSession.None?
  {
  }

  /** The daily counters saved on one day are read back the same day and
      zeroed on any later day. */
  lemma DailyCountersReload(v: TimerState, last: int, now: int)
    ensures var d := StateSaved(v).defaults.(lastSessionDate := Some(last));
      && (DayOf(last) < DayOf(now) ==>
            Initial(d, now).completedSessions == 0 && Initial(d, now).workSessionsCompleted == 0 &&
            Initial(d, now).defaults.completedSessions == Some(0))
      && (DayOf(last) >= DayOf(now) ==>
            Initial(d, now).completedSessions == v.completedSessions &&
            Initial(d, now).workSessionsCompleted == v.workSessionsCompleted)
  {
  }

  // --- Accessors ------------------------------------------------------------------------

  /** For a countdown below 100 minutes, `timeString` is five characters,
      "MM:SS", whose digits spell the whole minutes and the leftover seconds
      of the remaining time. */
  lemma TimeStringFormat(v: TimerState)
    requires 0 <= v.remaining < 100 * MsPerMinute
    ensures var t := TimeString(v);
      var secs := v.remaining / MsPerSecond;
      && |t| == 5 && t[2] == ':'
      && IsDigit(t[0]) && IsDigit(t[1]) && IsDigit(t[3]) && IsDigit(t[4])
      && DigitValue(t[0]) * 10 + DigitValue(t[1]) == secs / 60
      && DigitValue(t[3]) * 10 + DigitValue(t[4]) == secs % 60
      && (DigitValue(t[0]) * 10 + DigitValue(t[1])) * 60 + DigitValue(t[3]) * 10 + DigitValue(t[4]) == secs
  {
    var secs := WholeSeconds(v.remaining);
    assert secs == v.remaining / MsPerSecond;
    assert 0 <= secs < 6000;
    assert Quot(secs, 60) == secs / 60 < 100;
    assert Rem(secs, 60) == secs % 60;
    Pad2Spells(secs / 60);
    Pad2Spells(secs % 60);
  }

  /** While the countdown lies within the length of its kind, the elapsed
      part of `progress` lies between nothing and the whole. */
  lemma ProgressBounded(v: TimerState)
    requires WellFormed(v) && 0 <= v.remaining <= KindLength(v)
    ensures 0 <= Progress(v).elapsed <= Progress(v).total
    ensures Progress(v).elapsed + v.remaining == Progress(v).total
  {
  }

  /** `progress` measures a quick break against the configured break
      length, so a quick break longer than that shows negative progress. */
  lemma QuickBreakProgressNegative(v: TimerState, minutes: int, now: int)
    requires WellFormed(v) && !ShouldUseLongBreak(v)
    requires minutes * MsPerMinute > v.breakDuration
    ensures Progress(SetQuickBreak(v, minutes, now)).elapsed < 0
  {
  }

  /** During a master session the label and emoji name the break the rule
      picks, the same names the records carry; on work they are the focus
      label and the work emoji; a break outside a master session reads as a
      quick break. */
  lemma SessionLabels(v: TimerState)
    requires WellFormed(v)
    ensures !v.isBreakTime ==> SessionTypeText(v) == "Focus Time" && SessionTypeEmoji(v) == Work.Emoji()
    ensures v.isBreakTime && v.masterSessionStartTime.Some? ==>
      SessionTypeText(v) == BreakType(v).RawValue() && SessionTypeEmoji(v) == BreakType(v).Emoji()
    ensures v.isBreakTime && v.masterSessionStartTime.None? ==> SessionTypeText(v) == "Quick Break"
  {
  }

  /** A quick break is told apart only by the missing master session. When
      one completes with work starting automatically, the master break count
      still goes up, and the work that follows runs outside any master
      session, so its own break is labelled a quick break. */
  lemma QuickBreakAftermath(v: TimerState, minutes: int, t1: int, t2: int)
    requires WellFormed(v) && v.masterSessionStartTime.None?
    requires v.autoStartWork && v.autoStartBreaks
    ensures var q := SetQuickBreak(v, minutes, t1);
      var w := SessionCompleted(q, t1, false);
      && w.masterSessionBreakSessions == v.masterSessionBreakSessions + 1
      && !w.isBreakTime && w.isRunning && w.masterSessionStartTime.None?
      && SessionTypeText(SessionCompleted(w, t2, false)) == "Quick Break"
  {
  }
}
