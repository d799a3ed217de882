/** PomodoroTimer.swift as pure functions: the timer's whole observable
    state as a value, and one function per command giving the state after
    it. The class in module Timer is proved to follow these functions, and
    module TimerProperties proves what the commands promise about them. */
module TimerSpec {
  import opened Common
  import opened Sessions

  const DefaultDuration: int := 25 * MsPerMinute
  const DefaultBreakDuration: int := 5 * MsPerMinute
  const DefaultLongBreakDuration: int := 15 * MsPerMinute
  const DefaultSessionsUntilLongBreak: int := 4

  /** `remaining` is written back by a tick only when it moved by 0.1 s. */
  const UpdateThreshold: int := 100
  /** A session completes once no more than 0.1 s is left. */
  const CompletionTolerance: int := 100
  /** The fallback tick, used when no start time is recorded, takes 1 s off. */
  const FallbackTick: int := MsPerSecond

  /** What the timer sees of its current task. */
  datatype TaskTag = TaskTag(id: Option<string>, title: string, actualPomodoros: int)

  function TaskId(t: Option<TaskTag>): Option<string> {
    match t
    case None => None
    case Some(x) => x.id
  }

  function TaskTitle(t: Option<TaskTag>): Option<string> {
    match t
    case None => None
    case Some(x) => Some(x.title)
  }

  /** The UserDefaults keys the timer writes; None is a key never written. */
  datatype Defaults = Defaults(
    remaining: Option<int>,
    isRunning: Option<bool>,
    isBreakTime: Option<bool>,
    workDuration: Option<int>,
    breakDuration: Option<int>,
    longBreakDuration: Option<int>,
    autoStartBreaks: Option<bool>,
    autoStartWork: Option<bool>,
    sessionsUntilLongBreak: Option<int>,
    notificationsEnabled: Option<bool>,
    completedSessions: Option<int>,
    workSessionsCompleted: Option<int>,
    lastSessionDate: Option<int>)

  const NoDefaults: Defaults :=
    Defaults(None, None, None, None, None, None, None, None, None, None, None, None, None)

  /** Every field of the timer, the record and the task it holds seen as
      values. */
  datatype TimerState = TimerState(
    remaining: int,
    isRunning: bool,
    isPaused: bool,
    completedSessions: int,
    workDuration: int,
    breakDuration: int,
    longBreakDuration: int,
    isBreakTime: bool,
    autoStartBreaks: bool,
    autoStartWork: bool,
    sessionsUntilLongBreak: int,
    notificationsEnabled: bool,
    currentTask: Option<TaskTag>,
    currentSession: Option<Record>,
    masterSessionStartTime: Option<int>,
    masterSessionWorkSessions: int,
    masterSessionBreakSessions: int,
    masterSessionTotalFocusTime: int,
    workSessionsCompleted: int,
    sessionStartTime: Option<int>,
    defaults: Defaults)

  /** The long-break rule needs a positive cycle length: Swift's `%` traps
      on zero. Every value the timer loads or is given is positive. */
  predicate WellFormed(v: TimerState) {
    v.sessionsUntilLongBreak > 0
  }

  /** The flags and the record agree: a start time is recorded exactly while
      running, running and paused exclude each other, a running timer has a
      record, and the record it holds is still open. */
  predicate Consistent(v: TimerState) {
    && WellFormed(v)
    && (v.isRunning <==> v.sessionStartTime.Some?)
    && !(v.isRunning && v.isPaused)
    && (v.isRunning ==> v.currentSession.Some?)
    && (v.currentSession.Some? ==> v.currentSession.value.IsOpen())
  }

  // --- Persistence -----------------------------------------------------------

  /** `saveState()`. */
  function StateSaved(v: TimerState): TimerState {
    v.(defaults := v.defaults.(
      remaining := Some(v.remaining),
      isRunning := Some(v.isRunning),
      isBreakTime := Some(v.isBreakTime),
      completedSessions := Some(v.completedSessions),
      workSessionsCompleted := Some(v.workSessionsCompleted)))
  }

  /** `saveSettings()`. */
  function SettingsSaved(v: TimerState): TimerState {
    v.(defaults := v.defaults.(
      workDuration := Some(v.workDuration),
      breakDuration := Some(v.breakDuration),
      longBreakDuration := Some(v.longBreakDuration),
      autoStartBreaks := Some(v.autoStartBreaks),
      autoStartWork := Some(v.autoStartWork),
      sessionsUntilLongBreak := Some(v.sessionsUntilLongBreak),
      notificationsEnabled := Some(v.notificationsEnabled)))
  }

  /** `double(forKey:)` / `integer(forKey:)` read an absent key as 0; the
      stored value is used only when it is positive. */
  function PositiveOr(stored: Option<int>, fallback: int): int {
    if stored.GetOr(0) > 0 then stored.GetOr(0) else fallback
  }

  // --- init and the daily reset --------------------------------------------

  /** `resetDailyStatsIfNeeded()`: a last session on an earlier day than
      `now` zeroes the daily counters, in memory and in the defaults. */
  function ResetDailyStatsIfNeeded(v: TimerState, now: int): TimerState {
    match v.defaults.lastSessionDate
    case Some(last) =>
      if DayOf(last) < DayOf(now) then
        v.(completedSessions := 0, workSessionsCompleted := 0,
           defaults := v.defaults.(completedSessions := Some(0), workSessionsCompleted := Some(0)))
      else v
    case None => v
  }

  /** `init()` reading the defaults `d` at time `now`. The saved remaining
      time, running flag and break flag are not read back. */
  function Initial(d: Defaults, now: int): TimerState {
    var work := PositiveOr(d.workDuration, DefaultDuration);
    var loaded := TimerState(
      work, false, false, d.completedSessions.GetOr(0),
      work,
      PositiveOr(d.breakDuration, DefaultBreakDuration),
      PositiveOr(d.longBreakDuration, DefaultLongBreakDuration),
      false,
      d.autoStartBreaks.GetOr(true),
      d.autoStartWork.GetOr(true),
      PositiveOr(d.sessionsUntilLongBreak, DefaultSessionsUntilLongBreak),
      d.notificationsEnabled.GetOr(true),
      None, None, None, 0, 0, 0,
      d.workSessionsCompleted.GetOr(0),
      None, d);
    ResetDailyStatsIfNeeded(loaded, now)
  }

  // --- The long-break rule and the current kind ----------------------------

  /** `shouldUseLongBreak()`. The count is positive wherever `%` is taken,
      so Dafny's remainder agrees with Swift's. */
  predicate ShouldUseLongBreak(v: TimerState)
    requires WellFormed(v)
  {
    v.workSessionsCompleted > 0 && v.workSessionsCompleted % v.sessionsUntilLongBreak == 0
  }

  function BreakType(v: TimerState): SessionType
    requires WellFormed(v)
  {
    if ShouldUseLongBreak(v) then LongBreak else ShortBreak
  }

  function BreakLength(v: TimerState): int
    requires WellFormed(v)
  {
    if ShouldUseLongBreak(v) then v.longBreakDuration else v.breakDuration
  }

  /** The full length of the kind the timer is on. */
  function KindLength(v: TimerState): int
    requires WellFormed(v)
  {
    if v.isBreakTime then BreakLength(v) else v.workDuration
  }

  /** The kind of record `start()` opens. */
  function KindType(v: TimerState): SessionType
    requires WellFormed(v)
  {
    if v.isBreakTime then BreakType(v) else Work
  }

  // --- Finalising the current record ---------------------------------------

  /** The record `interrupt()` leaves behind, if there is one. */
  function Interrupted(v: TimerState, now: int): seq<Record> {
    match v.currentSession
    case None => []
    case Some(r) => [r.Interrupt(now)]
  }

  /** The state once the held record, if any, is interrupted at `now`. */
  function Interrupting(v: TimerState, now: int): TimerState {
    v.(currentSession := match v.currentSession
      case Some(r) => Some(r.Interrupt(now))
      case None => None)
  }

  /** The state once the held record, if any, is completed at `now`. */
  function Completing(v: TimerState, now: int): TimerState {
    v.(currentSession := match v.currentSession
      case Some(r) => Some(r.Complete(now))
      case None => None)
  }

  /** The record `complete()` leaves behind, if there is one. */
  function Completed(v: TimerState, now: int): seq<Record> {
    match v.currentSession
    case None => []
    case Some(r) => [r.Complete(now)]
  }

  function OpenWork(v: TimerState, now: int): Record {
    Opened(now, v.remaining, Work, TaskId(v.currentTask), TaskTitle(v.currentTask))
  }

  // --- Commands ---------------------------------------------------------------

  /** `start()`. */
  function Start(v: TimerState, now: int): TimerState
    requires WellFormed(v)
  {
    if v.isRunning then v else StateSaved(Started(v, now))
  }

  /** The flags `start()` sets: running, not paused, timed from `now`, and
      the master session begun if none was. */
  function Running(v: TimerState, now: int): TimerState {
    v.(
      isRunning := true,
      isPaused := false,
      sessionStartTime := Some(now),
      masterSessionStartTime := if v.masterSessionStartTime.None? then Some(now) else v.masterSessionStartTime)
  }

  /** The state `start()` leaves on a stopped timer, before saving: the flags
      of `Running`, and a record of the current kind opened if none is held. */
  function Started(v: TimerState, now: int): TimerState
    requires WellFormed(v)
  {
    var running := Running(v, now);
    if v.currentSession.None? then
      running.(currentSession := Some(Opened(now, v.remaining, KindType(v), TaskId(v.currentTask), TaskTitle(v.currentTask))))
    else running
  }

  /** `pause()`. */
  function Pause(v: TimerState): TimerState {
    StateSaved(v.(isRunning := false, isPaused := true, sessionStartTime := None))
  }

  /** `toggle()`. */
  function Toggle(v: TimerState, now: int): TimerState
    requires WellFormed(v)
  {
    if v.isRunning then Pause(v) else Start(v, now)
  }

  /** `reset()`; the record, if any, is interrupted and stored. */
  function Reset(v: TimerState, now: int): TimerState
    requires WellFormed(v)
  {
    Rewound(Interrupting(Pause(v), now))
  }

  /** The part of `reset()` after `pause()`: no record and no start time,
      the full length of the current kind, not paused, saved. */
  function Rewound(v: TimerState): TimerState
    requires WellFormed(v)
  {
    var cleared := v.(currentSession := None, sessionStartTime := None);
    StateSaved(cleared.(remaining := KindLength(cleared), isPaused := false))
  }

  /** `skipBreak()`; during a break the record, if any, is completed and
      stored. The skip counts as a break, and a work record is opened even
      when the timer is not running. */
  function SkipBreak(v: TimerState, now: int): TimerState {
    if !v.isBreakTime then v
    else
      var skipped := BreakCounted(Completing(v, now));
      StateSaved(skipped.(currentSession := Some(OpenWork(skipped, now))))
  }

  /** The master-session figures `endMasterSession()` reports. */
  datatype Summary = Summary(workSessions: int, breakSessions: int, totalFocusTime: int, duration: int)

  function EndSummary(v: TimerState, now: int): Summary {
    Summary(
      v.masterSessionWorkSessions,
      v.masterSessionBreakSessions,
      v.masterSessionTotalFocusTime,
      match v.masterSessionStartTime
      case Some(t) => now - t
      case None => 0)
  }

  /** The state `endMasterSession()` leaves; the record, if any, is
      interrupted and stored. */
  function EndMasterSession(v: TimerState, now: int): TimerState {
    Idled(Stopped(Interrupting(v, now)))
  }

  /** `if isRunning { pause() }`. */
  function Stopped(v: TimerState): TimerState {
    if v.isRunning then Pause(v) else v
  }

  /** No master session: no start, and all three figures zero. */
  function MasterCleared(v: TimerState): TimerState {
    v.(
      masterSessionStartTime := None,
      masterSessionWorkSessions := 0,
      masterSessionBreakSessions := 0,
      masterSessionTotalFocusTime := 0)
  }

  /** The "reset all state to idle" part of `endMasterSession()`, followed by
      `saveState()`. */
  function Idled(v: TimerState): TimerState {
    StateSaved(MasterCleared(v).(
      currentSession := None,
      sessionStartTime := None,
      isBreakTime := false,
      remaining := v.workDuration,
      isPaused := false,
      isRunning := false))
  }

  /** `setCurrentTask(_:)`: an open work record is re-labelled too. */
  function SetCurrentTask(v: TimerState, task: Option<TaskTag>): TimerState {
    var relabelled :=
      match v.currentSession
      case Some(r) =>
        if r.sessionType == Work then Some(r.(taskId := TaskId(task), taskTitle := TaskTitle(task)))
        else v.currentSession
      case None => None;
    v.(currentTask := task, currentSession := relabelled)
  }

  /** `setDurations(work:break:longBreak:)`. */
  function SetDurations(v: TimerState, work: int, brk: int, longBreak: Option<int>): TimerState {
    var given := v.(
      workDuration := work,
      breakDuration := brk,
      longBreakDuration := longBreak.GetOr(v.longBreakDuration));
    SettingsSaved(Rearmed(given))
  }

  /** A timer that is not running is put back to the start of a work
      session; a running one is left alone. */
  function Rearmed(v: TimerState): TimerState {
    if !v.isRunning then v.(isBreakTime := false, remaining := v.workDuration, isPaused := false)
    else v
  }

  /** `setAutoStart(breaks:work:)`. */
  function SetAutoStart(v: TimerState, breaks: bool, work: bool): TimerState {
    SettingsSaved(v.(autoStartBreaks := breaks, autoStartWork := work))
  }

  /** `setNotifications(enabled:)`. */
  function SetNotifications(v: TimerState, enabled: bool): TimerState {
    SettingsSaved(v.(notificationsEnabled := enabled))
  }

  /** The settings sheet's direct write of `sessionsUntilLongBreak`; it is
      not saved until the next `saveSettings()`. */
  function SetSessionsUntilLongBreak(v: TimerState, n: int): TimerState {
    v.(sessionsUntilLongBreak := n)
  }

  /** `setQuickBreak(minutes:)`; the record, if any, is interrupted and
      stored. Only the remaining time and the running flag are saved. */
  function SetQuickBreak(v: TimerState, minutes: int, now: int): TimerState {
    QuickBreakRunning(QuickBreakArmed(Interrupting(v, now), minutes * MsPerMinute, now), now)
  }

  /** The first half of `setQuickBreak(minutes:)`: a break of `length` with a
      fresh short-break record. */
  function QuickBreakArmed(v: TimerState, length: int, now: int): TimerState {
    v.(
      isBreakTime := true,
      remaining := length,
      isPaused := false,
      currentSession := Some(Opened(now, length, ShortBreak, None, None)))
  }

  /** The second half: running from `now`, with only the remaining time and
      the running flag written to the defaults. */
  function QuickBreakRunning(v: TimerState, now: int): TimerState {
    v.(
      isRunning := true,
      isPaused := false,
      sessionStartTime := Some(now),
      defaults := v.defaults.(remaining := Some(v.remaining), isRunning := Some(true)))
  }

  // --- Ticks and completion ---------------------------------------------------

  /** The length a tick measures against: the record's, else the kind's. */
  function CurrentDuration(v: TimerState): int
    requires WellFormed(v)
  {
    match v.currentSession
    case Some(r) => r.duration
    case None => KindLength(v)
  }

  /** `max(0, currentDuration - elapsedTime)` for a tick at `now`. */
  function NewRemaining(v: TimerState, start: int, now: int): int
    requires WellFormed(v)
  {
    Max(0, CurrentDuration(v) - (now - start))
  }

  /** Whether the tick at `now` calls `sessionCompleted()`. */
  predicate TickCompletes(v: TimerState, now: int)
    requires WellFormed(v)
  {
    match v.sessionStartTime
    case None => v.remaining <= 0
    case Some(start) => NewRemaining(v, start, now) <= CompletionTolerance
  }

  /** The first part of `sessionCompleted()`: the record is completed, the
      sweep may unbind the current task, and the start time is cleared. */
  function Closed(v: TimerState, now: int, swept: bool): TimerState {
    Completing(v, now).(
      currentTask := if swept then None else v.currentTask,
      sessionStartTime := None)
  }

  /** After a work session: the three work counters and the task's pomodoro
      count go up by one, the focus time grows by the record's span, and a
      break of the length the incremented count selects is due. */
  function WorkCounted(c: TimerState): TimerState
    requires WellFormed(c)
  {
    var counted := Tallied(c).(
      currentTask := match c.currentTask
        case Some(t) => Some(t.(actualPomodoros := t.actualPomodoros + 1))
        case None => None,
      isBreakTime := true);
    counted.(remaining := BreakLength(counted))
  }

  /** The counters a completed work session raises. */
  function Tallied(c: TimerState): TimerState {
    c.(
      completedSessions := c.completedSessions + 1,
      workSessionsCompleted := c.workSessionsCompleted + 1,
      masterSessionWorkSessions := c.masterSessionWorkSessions + 1,
      masterSessionTotalFocusTime := c.masterSessionTotalFocusTime +
        match c.currentSession
        case Some(r) => r.ActualDuration()
        case None => 0)
  }

  /** The break either runs on at once, with a fresh record of its kind, or
      the timer pauses and holds no record. */
  function BreakBegun(w: TimerState, now: int): TimerState
    requires WellFormed(w)
  {
    if w.autoStartBreaks then
      w.(currentSession := Some(Opened(now, w.remaining, BreakType(w), None, None)), sessionStartTime := Some(now))
    else Pause(w).(currentSession := None)
  }

  /** After a break: one more master break, and work of the full length is due. */
  function BreakCounted(c: TimerState): TimerState {
    c.(masterSessionBreakSessions := c.masterSessionBreakSessions + 1,
       isBreakTime := false,
       remaining := c.workDuration)
  }

  /** Work either runs on at once, with a fresh work record for the current
      task, or the timer pauses and holds no record. */
  function WorkBegun(b: TimerState, now: int): TimerState {
    if b.autoStartWork then
      b.(currentSession := Some(OpenWork(b, now)), sessionStartTime := Some(now))
    else Pause(b).(currentSession := None)
  }

  /** The last part of `sessionCompleted()`: state and settings are saved and
      the completion time is recorded as the last session date. */
  function Stamped(n: TimerState, now: int): TimerState {
    var saved := SettingsSaved(StateSaved(n));
    saved.(defaults := saved.defaults.(lastSessionDate := Some(now)))
  }

  /** `sessionCompleted()` at `now`. `swept` says whether the task sweep run
      on saving the completed record unbinds the current task. */
  function SessionCompleted(v: TimerState, now: int, swept: bool): TimerState
    requires WellFormed(v)
  {
    var c := Closed(v, now, swept);
    var next :=
      if !v.isBreakTime then BreakBegun(WorkCounted(c), now)
      else WorkBegun(BreakCounted(c), now);
    Stamped(next, now)
  }

  /** The tracking part of a tick with a start time: `remaining` follows
      the measured value only when they differ by the threshold or more. */
  function Tracked(v: TimerState, start: int, now: int): TimerState
    requires WellFormed(v)
  {
    var nr := NewRemaining(v, start, now);
    if Abs(v.remaining - nr) >= UpdateThreshold then StateSaved(v.(remaining := nr)) else v
  }

  /** `tickHandler()` at `now`. */
  function Tick(v: TimerState, now: int, swept: bool): TimerState
    requires WellFormed(v)
  {
    match v.sessionStartTime
    case None =>
      if v.remaining > 0 then StateSaved(v.(remaining := v.remaining - FallbackTick))
      else SessionCompleted(v, now, swept)
    case Some(start) =>
      var updated := Tracked(v, start, now);
      if NewRemaining(v, start, now) <= CompletionTolerance then SessionCompleted(updated, now, swept) else updated
  }

  // --- Accessors ----------------------------------------------------------------

  /** `timeString`: whole minutes and seconds of `remaining` as "%02d:%02d". */
  function TimeString(v: TimerState): string {
    var secs := WholeSeconds(v.remaining);
    Pad2(Quot(secs, 60)) + ":" + Pad2(Rem(secs, 60))
  }

  /** `progress` as the fraction elapsed / total; the Double division is not
      modelled. */
  datatype Fraction = Fraction(elapsed: int, total: int)

  function Progress(v: TimerState): Fraction
    requires WellFormed(v)
  {
    Fraction(KindLength(v) - v.remaining, KindLength(v))
  }

  /** A break with no master session is taken for a quick break. */
  function SessionTypeText(v: TimerState): string
    requires WellFormed(v)
  {
    if v.isBreakTime then
      if v.masterSessionStartTime.None? then "Quick Break"
      else if ShouldUseLongBreak(v) then "Long Break" else "Short Break"
    else "Focus Time"
  }

  function SessionTypeEmoji(v: TimerState): string
    requires WellFormed(v)
  {
    if v.isBreakTime then
      if v.masterSessionStartTime.None? then "\U{1F9D8}"
      else if ShouldUseLongBreak(v) then "\U{1F334}" else "\U{2615}\U{FE0F}"
    else "\U{1F345}"
  }
}
