/** PomodoroTimer.swift: the timer object. Each command changes the fields
    in the order the source does, and is proved to leave exactly the state
    the matching function of TimerSpec describes, and to store exactly the
    records that command finalises. */
module Timer {
  import opened Common
  import opened Sessions
  import opened Tasks
  import opened Store
  import opened TimerSpec

  /** What the timer sees of a task object. */
  function TagOf(t: TaskItem?): Option<TaskTag>
    reads t
  {
    if t == null then None else Some(TaskTag(t.storeIdentifier, t.title, t.actualPomodoros))
  }

  class PomodoroTimer {
    var remaining: int
    var isRunning: bool
    var isPaused: bool
    var completedSessions: int
    var workDuration: int
    var breakDuration: int
    var longBreakDuration: int
    var isBreakTime: bool
    var autoStartBreaks: bool
    var autoStartWork: bool
    var sessionsUntilLongBreak: int
    var notificationsEnabled: bool
    var currentTask: TaskItem?
    /** The open record, held by value: it is stored only once finalised,
        and the timer lets go of it then. */
    var currentSession: Option<Record>
    var masterSessionStartTime: Option<int>
    var masterSessionWorkSessions: int
    var masterSessionBreakSessions: int
    var masterSessionTotalFocusTime: int
    var modelContext: ModelContext?
    var workSessionsCompleted: int
    var sessionStartTime: Option<int>
    /** The UserDefaults store the timer reads at launch and writes back. */
    var defaults: Defaults

    function View(): TimerState
      reads this, currentTask
    {
      TimerState(
        remaining, isRunning, isPaused, completedSessions,
        workDuration, breakDuration, longBreakDuration,
        isBreakTime, autoStartBreaks, autoStartWork,
        sessionsUntilLongBreak, notificationsEnabled,
        TaskValue(),
        currentSession,
        masterSessionStartTime, masterSessionWorkSessions,
        masterSessionBreakSessions, masterSessionTotalFocusTime,
        workSessionsCompleted, sessionStartTime, defaults)
    }

    /** What the timer sees of the current task, if any. */
    function TaskValue(): Option<TaskTag>
      reads this`currentTask, currentTask
    {
      TagOf(currentTask)
    }

    /** Whether the sweep that `sessionCompleted()` runs at `now` would
        unbind the current task: it runs only when there is a record and a
        context, and unbinds the task when the task is one it deletes. */
    predicate SweepUnbinds(now: int)
      reads this, modelContext, currentTask
    {
      modelContext != null && currentSession.Some? && currentTask != null &&
      currentTask in modelContext.tasks && Expired(currentTask, Cutoff(now))
    }

    /** `init()` over the defaults `d`, at time `now`. */
    constructor (d: Defaults, now: int)
      ensures View() == Initial(d, now)
      ensures modelContext == null
    {
      var work := PositiveOr(d.workDuration, DefaultDuration);
      workDuration := work;
      breakDuration := PositiveOr(d.breakDuration, DefaultBreakDuration);
      longBreakDuration := PositiveOr(d.longBreakDuration, DefaultLongBreakDuration);
      autoStartBreaks := d.autoStartBreaks.GetOr(true);
      autoStartWork := d.autoStartWork.GetOr(true);
      sessionsUntilLongBreak := PositiveOr(d.sessionsUntilLongBreak, DefaultSessionsUntilLongBreak);
      notificationsEnabled := d.notificationsEnabled.GetOr(true);
      completedSessions := d.completedSessions.GetOr(0);
      workSessionsCompleted := d.workSessionsCompleted.GetOr(0);
      isBreakTime := false;
      remaining := work;
      isRunning := false;
      isPaused := false;
      currentTask := null;
      currentSession := None;
      masterSessionStartTime := None;
      masterSessionWorkSessions := 0;
      masterSessionBreakSessions := 0;
      masterSessionTotalFocusTime := 0;
      modelContext := null;
      sessionStartTime := None;
      defaults := d;
      new;
      ResetDailyStatsIfNeeded(now);
    }

    method ResetDailyStatsIfNeeded(now: int)
      modifies this
      ensures View() == TimerSpec.ResetDailyStatsIfNeeded(old(View()), now)
      ensures currentTask == old(currentTask)
      ensures modelContext == old(modelContext)
    {
      if defaults.lastSessionDate.Some? {
        if DayOf(defaults.lastSessionDate.value) < DayOf(now) {
          completedSessions := 0;
          workSessionsCompleted := 0;
          defaults := defaults.(completedSessions := Some(0), workSessionsCompleted := Some(0));
        }
      }
    }

    method SaveState()
      modifies this
      ensures View() == StateSaved(old(View()))
      ensures currentTask == old(currentTask)
      ensures modelContext == old(modelContext)
    {
      defaults := defaults.(
        remaining := Some(remaining),
        isRunning := Some(isRunning),
        isBreakTime := Some(isBreakTime),
        completedSessions := Some(completedSessions),
        workSessionsCompleted := Some(workSessionsCompleted));
    }

    method SaveSettings()
      modifies this
      ensures View() == SettingsSaved(old(View()))
      ensures currentTask == old(currentTask)
      ensures modelContext == old(modelContext)
    {
      defaults := defaults.(
        workDuration := Some(workDuration),
        breakDuration := Some(breakDuration),
        longBreakDuration := Some(longBreakDuration),
        autoStartBreaks := Some(autoStartBreaks),
        autoStartWork := Some(autoStartWork),
        sessionsUntilLongBreak := Some(sessionsUntilLongBreak),
        notificationsEnabled := Some(notificationsEnabled));
    }

    /** The `if let session = currentSession { session.interrupt(); ... }`
        block: the record is interrupted and, with a context, stored. */
    method InterruptCurrent(now: int)
      modifies this, modelContext
      ensures View() == Interrupting(old(View()), now)
      ensures currentTask == old(currentTask) && modelContext == old(modelContext)
      ensures modelContext != null ==>
        modelContext.sessions == old(modelContext.sessions) + Interrupted(old(View()), now) &&
        modelContext.tasks == old(modelContext.tasks) &&
        modelContext.completions == old(modelContext.completions)
    {
      if currentSession.Some? {
        currentSession := Some(currentSession.value.Interrupt(now));
        if modelContext != null {
          modelContext.InsertSession(currentSession.value);
        }
      }
    }

    /** The `currentSession?.complete()` step followed by storing the record
        when there is a context. */
    method CompleteCurrent(now: int)
      modifies this, modelContext
      ensures View() == Completing(old(View()), now)
      ensures currentTask == old(currentTask) && modelContext == old(modelContext)
      ensures modelContext != null ==>
        modelContext.sessions == old(modelContext.sessions) + Completed(old(View()), now) &&
        modelContext.tasks == old(modelContext.tasks) &&
        modelContext.completions == old(modelContext.completions)
    {
      if currentSession.Some? {
        currentSession := Some(currentSession.value.Complete(now));
        if modelContext != null {
          modelContext.InsertSession(currentSession.value);
        }
      }
    }

    /** `start()`: does nothing when already running. */
    method Start(now: int)
      requires WellFormed(View())
      modifies this
      ensures View() == TimerSpec.Start(old(View()), now)
      ensures currentTask == old(currentTask) && modelContext == old(modelContext)
    {
      if isRunning {
        return;
      }
      ghost var v0 := View();
      var kind := KindType(View());
      Run(now);
      if currentSession.None? {
        var tag := TagOf(currentTask);
        currentSession := Some(Opened(now, remaining, kind, TaskId(tag), TaskTitle(tag)));
      }
      assert View() == Started(v0, now);
      SaveState();
    }

    /** The flags `start()` sets. */
    method Run(now: int)
      modifies this
      ensures View() == Running(old(View()), now)
      ensures currentTask == old(currentTask) && modelContext == old(modelContext)
    {
      SetFlags(true, false);
      sessionStartTime := Some(now);
      masterSessionStartTime := if masterSessionStartTime.None? then Some(now) else masterSessionStartTime;
    }

    /** Sets the running and paused flags and nothing else. */
    method SetFlags(running: bool, paused: bool)
      modifies this
      ensures View() == old(View()).(isRunning := running, isPaused := paused)
      ensures currentTask == old(currentTask) && modelContext == old(modelContext)
    {
      isRunning := running;
      isPaused := paused;
    }

    /** `pause()`. */
    method Pause()
      modifies this
      ensures View() == TimerSpec.Pause(old(View()))
      ensures currentTask == old(currentTask) && modelContext == old(modelContext)
    {
      SetFlags(false, true);
      sessionStartTime := None;
      SaveState();
    }

    /** `toggle()`. */
    method Toggle(now: int)
      requires WellFormed(View())
      modifies this
      ensures View() == TimerSpec.Toggle(old(View()), now)
      ensures currentTask == old(currentTask) && modelContext == old(modelContext)
    {
      if isRunning {
        Pause();
      } else {
        Start(now);
      }
    }

    /** `reset()`. */
    method Reset(now: int)
      requires WellFormed(View())
      modifies this, modelContext
      ensures View() == TimerSpec.Reset(old(View()), now)
      ensures currentTask == old(currentTask) && modelContext == old(modelContext)
      ensures modelContext != null ==>
        modelContext.sessions == old(modelContext.sessions) + Interrupted(old(View()), now) &&
        modelContext.tasks == old(modelContext.tasks) &&
        modelContext.completions == old(modelContext.completions)
    {
      Pause();
      InterruptCurrent(now);
      Rewind();
    }

    /** The part of `reset()` after the record is stored. */
    method Rewind()
      requires WellFormed(View())
      modifies this
      ensures View() == Rewound(old(View()))
      ensures currentTask == old(currentTask) && modelContext == old(modelContext)
    {
      Unbind();
      remaining := KindLength(View());
      isPaused := false;
      SaveState();
    }

    /** Drops the held record and the start time. */
    method Unbind()
      modifies this
      ensures View() == old(View()).(currentSession := None, sessionStartTime := None)
      ensures currentTask == old(currentTask) && modelContext == old(modelContext)
    {
      currentSession := None;
      sessionStartTime := None;
    }

    /** `skipBreak()`: does nothing outside a break. */
    method SkipBreak(now: int)
      modifies this, modelContext
      ensures View() == TimerSpec.SkipBreak(old(View()), now)
      ensures currentTask == old(currentTask) && modelContext == old(modelContext)
      ensures modelContext != null ==>
        modelContext.sessions == old(modelContext.sessions) + (if old(isBreakTime) then Completed(old(View()), now) else []) &&
        modelContext.tasks == old(modelContext.tasks) &&
        modelContext.completions == old(modelContext.completions)
    {
      if !isBreakTime {
        return;
      }
      CompleteCurrent(now);
      CountBreak();
      var tag := TagOf(currentTask);
      currentSession := Some(Opened(now, remaining, Work, TaskId(tag), TaskTitle(tag)));
      SaveState();
    }

    /** `endMasterSession()`: reports the master figures as they were, then
        returns the timer to idle. */
    method EndMasterSession(now: int) returns (stats: Summary)
      modifies this, modelContext
      ensures stats == EndSummary(old(View()), now)
      ensures View() == TimerSpec.EndMasterSession(old(View()), now)
      ensures currentTask == old(currentTask) && modelContext == old(modelContext)
      ensures modelContext != null ==>
        modelContext.sessions == old(modelContext.sessions) + Interrupted(old(View()), now) &&
        modelContext.tasks == old(modelContext.tasks) &&
        modelContext.completions == old(modelContext.completions)
    {
      var duration := if masterSessionStartTime.Some? then now - masterSessionStartTime.value else 0;
      stats := Summary(masterSessionWorkSessions, masterSessionBreakSessions, masterSessionTotalFocusTime, duration);
      InterruptCurrent(now);
      if isRunning {
        Pause();
      }
      Idle();
    }

    /** The rest of `endMasterSession()`: every master figure, the record,
        the start time and the kind go back to their idle values. */
    method Idle()
      modifies this
      ensures View() == Idled(old(View()))
      ensures currentTask == old(currentTask) && modelContext == old(modelContext)
    {
      ClearMaster();
      Unbind();
      Halt();
      SaveState();
    }

    /** Back to a stopped work session of full length. */
    method Halt()
      modifies this
      ensures View() == old(View()).(isBreakTime := false, remaining := workDuration, isPaused := false, isRunning := false)
      ensures currentTask == old(currentTask) && modelContext == old(modelContext)
    {
      isBreakTime := false;
      remaining := workDuration;
      SetFlags(false, false);
    }

    /** The master-session reset of `endMasterSession()`. */
    method ClearMaster()
      modifies this
      ensures View() == MasterCleared(old(View()))
      ensures currentTask == old(currentTask) && modelContext == old(modelContext)
    {
      masterSessionStartTime := None;
      masterSessionWorkSessions := 0;
      ClearMasterFigures();
    }

    /** Zeroes the master break count and focus time. */
    method ClearMasterFigures()
      modifies this
      ensures View() == old(View()).(masterSessionBreakSessions := 0, masterSessionTotalFocusTime := 0)
      ensures currentTask == old(currentTask) && modelContext == old(modelContext)
    {
      masterSessionBreakSessions := 0;
      masterSessionTotalFocusTime := 0;
    }

    /** `setCurrentTask(_:)`. */
    method SetCurrentTask(task: TaskItem?)
      modifies this
      ensures View() == TimerSpec.SetCurrentTask(old(View()), TagOf(task))
      ensures currentTask == task && modelContext == old(modelContext)
    {
      currentTask := task;
      if currentSession.Some? && currentSession.value.sessionType == Work {
        var tag := TagOf(task);
        currentSession := Some(currentSession.value.(taskId := TaskId(tag), taskTitle := TaskTitle(tag)));
      }
    }

    /** `setDurations(work:break:longBreak:)`. */
    method SetDurations(work: int, brk: int, longBreak: Option<int>)
      modifies this
      ensures View() == TimerSpec.SetDurations(old(View()), work, brk, longBreak)
      ensures currentTask == old(currentTask) && modelContext == old(modelContext)
    {
      SetLengths(work, brk, longBreak.GetOr(longBreakDuration));
      Rearm();
      SaveSettings();
    }

    /** Stores the three lengths. */
    method SetLengths(work: int, brk: int, longBreak: int)
      modifies this
      ensures View() == old(View()).(workDuration := work, breakDuration := brk, longBreakDuration := longBreak)
      ensures currentTask == old(currentTask) && modelContext == old(modelContext)
    {
      workDuration := work;
      breakDuration := brk;
      longBreakDuration := longBreak;
    }

    /** The `if !isRunning { ... }` block of `setDurations`. */
    method Rearm()
      modifies this
      ensures View() == Rearmed(old(View()))
      ensures currentTask == old(currentTask) && modelContext == old(modelContext)
    {
      if !isRunning {
        isBreakTime := false;
        remaining := workDuration;
        isPaused := false;
      }
    }

    /** `setAutoStart(breaks:work:)`. */
    method SetAutoStart(breaks: bool, work: bool)
      modifies this
      ensures View() == TimerSpec.SetAutoStart(old(View()), breaks, work)
      ensures currentTask == old(currentTask) && modelContext == old(modelContext)
    {
      autoStartBreaks := breaks;
      autoStartWork := work;
      SaveSettings();
    }

    /** `setNotifications(enabled:)`. */
    method SetNotifications(enabled: bool)
      modifies this
      ensures View() == TimerSpec.SetNotifications(old(View()), enabled)
      ensures currentTask == old(currentTask) && modelContext == old(modelContext)
    {
      notificationsEnabled := enabled;
      SaveSettings();
    }

    /** The settings sheet assigns `sessionsUntilLongBreak` directly, from a
        picker offering 2 through 8. */
    method SetSessionsUntilLongBreak(n: int)
      requires n > 0
      modifies this
      ensures View() == TimerSpec.SetSessionsUntilLongBreak(old(View()), n)
      ensures currentTask == old(currentTask) && modelContext == old(modelContext)
    {
      sessionsUntilLongBreak := n;
    }

    /** `setQuickBreak(minutes:)`. */
    method SetQuickBreak(minutes: int, now: int)
      modifies this, modelContext
      ensures View() == TimerSpec.SetQuickBreak(old(View()), minutes, now)
      ensures currentTask == old(currentTask) && modelContext == old(modelContext)
      ensures modelContext != null ==>
        modelContext.sessions == old(modelContext.sessions) + Interrupted(old(View()), now) &&
        modelContext.tasks == old(modelContext.tasks) &&
        modelContext.completions == old(modelContext.completions)
    {
      InterruptCurrent(now);
      var quickBreakDuration := minutes * MsPerMinute;
      ArmQuickBreak(quickBreakDuration, now);
      RunQuickBreak(now);
    }

    /** The first half of `setQuickBreak`. */
    method ArmQuickBreak(length: int, now: int)
      modifies this
      ensures View() == QuickBreakArmed(old(View()), length, now)
      ensures currentTask == old(currentTask) && modelContext == old(modelContext)
    {
      SetFlags(isRunning, false);
      isBreakTime := true;
      remaining := length;
      currentSession := Some(Opened(now, length, ShortBreak, None, None));
    }

    /** The second half of `setQuickBreak`. */
    method RunQuickBreak(now: int)
      modifies this
      ensures View() == QuickBreakRunning(old(View()), now)
      ensures currentTask == old(currentTask) && modelContext == old(modelContext)
    {
      SetFlags(true, false);
      sessionStartTime := Some(now);
      defaults := defaults.(remaining := Some(remaining), isRunning := Some(isRunning));
    }

    /** The timer's `cleanupOldTasks(context:)`: deletes every task the
        sweep fetches and unbinds the current task if it is one of them. */
    method CleanupOldTasks(context: ModelContext, now: int)
      modifies this`currentTask, context
      ensures context.tasks == old(Survivors(context.tasks, Cutoff(now)))
      ensures context.sessions == old(context.sessions) && context.completions == old(context.completions)
      ensures currentTask ==
        if old(currentTask != null && currentTask in context.tasks && Expired(currentTask, Cutoff(now)))
        then null else old(currentTask)
      ensures View() == old(View()).(currentTask := TagOf(currentTask))
    {
      var cutoff := Cutoff(now);
      var oldTasks := ExpiredTasks(context.tasks, cutoff);
      ghost var before := context.tasks;
      ghost var bound := currentTask;
      KeepAbsent(before, []);
      var i := 0;
      while i < |oldTasks|
        invariant 0 <= i <= |oldTasks|
        invariant context.tasks == Keep(before, oldTasks[..i])
        invariant currentTask == if bound in oldTasks[..i] then null else bound
        invariant context.sessions == old(context.sessions) && context.completions == old(context.completions)
      {
        var task := oldTasks[i];
        if currentTask != null && task == currentTask {
          currentTask := null;
        }
        context.DeleteTask(task);
        KeepKeep(before, oldTasks[..i], [task]);
        assert oldTasks[..i + 1] == oldTasks[..i] + [task];
        i := i + 1;
      }
      assert oldTasks[..i] == oldTasks;
      KeepExpired(before, oldTasks, cutoff);
    }

    /** The first part of `sessionCompleted()`: complete the record, store it
        and sweep old tasks when there is a context, clear the start time. */
    method CloseCurrent(now: int)
      modifies this, modelContext
      ensures View() == Closed(old(View()), now, old(SweepUnbinds(now)))
      ensures modelContext == old(modelContext)
      ensures currentTask == null || currentTask == old(currentTask)
      ensures modelContext != null ==>
        modelContext.sessions == old(modelContext.sessions) + Completed(old(View()), now) &&
        modelContext.tasks == (if old(currentSession).Some? then old(Survivors(modelContext.tasks, Cutoff(now))) else old(modelContext.tasks)) &&
        modelContext.completions == old(modelContext.completions)
    {
      if currentSession.Some? {
        currentSession := Some(currentSession.value.Complete(now));
        if modelContext != null {
          modelContext.InsertSession(currentSession.value);
          CleanupOldTasks(modelContext, now);
        }
      }
      sessionStartTime := None;
    }

    /** The work branch's counting: the counters of `Tallied`, the task's
        `actualPomodoros`, and then the break of the selected length is due. */
    method CountWork()
      requires WellFormed(View())
      modifies this, currentTask
      ensures View() == WorkCounted(old(View()))
      ensures currentTask == old(currentTask) && modelContext == old(modelContext)
    {
      Tally();
      if currentTask != null {
        currentTask.actualPomodoros := currentTask.actualPomodoros + 1;
      }
      isBreakTime := true;
      remaining := BreakLength(View());
    }

    /** The four counter updates of the work branch. */
    method Tally()
      modifies this
      ensures View() == Tallied(old(View()))
      ensures currentTask == old(currentTask) && modelContext == old(modelContext)
    {
      completedSessions := completedSessions + 1;
      workSessionsCompleted := workSessionsCompleted + 1;
      TallyMaster();
    }

    /** The master half of `Tally`. */
    method TallyMaster()
      modifies this
      ensures View() == old(View()).(
        masterSessionWorkSessions := old(masterSessionWorkSessions) + 1,
        masterSessionTotalFocusTime := old(masterSessionTotalFocusTime) +
          if currentSession.Some? then currentSession.value.ActualDuration() else 0)
      ensures currentTask == old(currentTask) && modelContext == old(modelContext)
    {
      masterSessionWorkSessions := masterSessionWorkSessions + 1;
      masterSessionTotalFocusTime := masterSessionTotalFocusTime +
        if currentSession.Some? then currentSession.value.ActualDuration() else 0;
    }

    /** The work branch's hand-over to the break. */
    method BeginBreak(now: int)
      requires WellFormed(View())
      modifies this
      ensures View() == BreakBegun(old(View()), now)
      ensures currentTask == old(currentTask) && modelContext == old(modelContext)
    {
      if autoStartBreaks {
        currentSession := Some(Opened(now, remaining, BreakType(View()), None, None));
        sessionStartTime := Some(now);
      } else {
        Pause();
        currentSession := None;
      }
    }

    /** The break branch's counting. */
    method CountBreak()
      modifies this
      ensures View() == BreakCounted(old(View()))
      ensures currentTask == old(currentTask) && modelContext == old(modelContext)
    {
      masterSessionBreakSessions := masterSessionBreakSessions + 1;
      isBreakTime := false;
      remaining := workDuration;
    }

    /** The break branch's hand-over to work. */
    method BeginWork(now: int)
      modifies this
      ensures View() == WorkBegun(old(View()), now)
      ensures currentTask == old(currentTask) && modelContext == old(modelContext)
    {
      if autoStartWork {
        var tag := TagOf(currentTask);
        currentSession := Some(Opened(now, remaining, Work, TaskId(tag), TaskTitle(tag)));
        sessionStartTime := Some(now);
      } else {
        Pause();
        currentSession := None;
      }
    }

    /** `sessionCompleted()`. */
    method SessionCompleted(now: int)
      requires WellFormed(View())
      modifies this, currentTask, modelContext
      ensures View() == TimerSpec.SessionCompleted(old(View()), now, old(SweepUnbinds(now)))
      ensures modelContext == old(modelContext)
      ensures modelContext != null ==>
        modelContext.sessions == old(modelContext.sessions) + Completed(old(View()), now) &&
        modelContext.tasks == (if old(currentSession).Some? then old(Survivors(modelContext.tasks, Cutoff(now))) else old(modelContext.tasks)) &&
        modelContext.completions == old(modelContext.completions)
    {
      CloseCurrent(now);
      if !isBreakTime {
        CountWork();
        BeginBreak(now);
      } else {
        CountBreak();
        BeginWork(now);
      }
      Stamp(now);
    }

    /** The saving at the end of `sessionCompleted()`. */
    method Stamp(now: int)
      modifies this
      ensures View() == Stamped(old(View()), now)
      ensures currentTask == old(currentTask) && modelContext == old(modelContext)
    {
      SaveState();
      SaveSettings();
      defaults := defaults.(lastSessionDate := Some(now));
    }

    /** `tickHandler()`, fired by the one-second timer while running. */
    method Tick(now: int)
      requires WellFormed(View()) && isRunning
      modifies this, currentTask, modelContext
      ensures View() == TimerSpec.Tick(old(View()), now, old(SweepUnbinds(now)))
      ensures modelContext == old(modelContext)
      ensures modelContext != null ==>
        modelContext.sessions == old(modelContext.sessions) +
          (if TickCompletes(old(View()), now) then Completed(old(View()), now) else []) &&
        modelContext.tasks ==
          (if TickCompletes(old(View()), now) && old(currentSession).Some?
           then old(Survivors(modelContext.tasks, Cutoff(now))) else old(modelContext.tasks)) &&
        modelContext.completions == old(modelContext.completions)
    {
      if sessionStartTime.None? {
        if remaining > 0 {
          remaining := remaining - FallbackTick;
          SaveState();
        } else {
          SessionCompleted(now);
        }
        return;
      }
      var newRemaining := Track(now);
      if newRemaining <= CompletionTolerance {
        SessionCompleted(now);
      }
    }

    /** The measuring part of `tickHandler()` once a start time is known. */
    method Track(now: int) returns (newRemaining: int)
      requires WellFormed(View()) && sessionStartTime.Some?
      modifies this
      ensures newRemaining == NewRemaining(old(View()), old(sessionStartTime.value), now)
      ensures View() == Tracked(old(View()), old(sessionStartTime.value), now)
      ensures currentTask == old(currentTask) && modelContext == old(modelContext)
    {
      var startTime := sessionStartTime.value;
      var currentDuration := if currentSession.Some? then currentSession.value.duration else KindLength(View());
      var elapsedTime := now - startTime;
      newRemaining := Max(0, currentDuration - elapsedTime);
      if Abs(remaining - newRemaining) >= UpdateThreshold {
        remaining := newRemaining;
        SaveState();
      }
    }
  }
}
