/** DOTpomodoroApp.swift: the menu-bar title and the sweep of old completed
    tasks the app runs when its menu first appears. */
module App {
  import opened Common
  import opened Tasks
  import opened Store
  import opened TimerSpec

  // --- updateMenuBarTitle --------------------------------------------------------

  /** The pause symbol shown in front of a paused timer. */
  const PausedMark: string := "\U{23F8}"

  /** `updateMenuBarTitle()`: the session's emoji and the remaining time while
      running, the pause symbol and the remaining time while paused, and the
      app's name otherwise. */
  function MenuBarTitle(v: TimerState): string
    requires WellFormed(v)
  {
    if v.isRunning then SessionTypeEmoji(v) + " " + TimeString(v)
    else if v.isPaused then PausedMark + " " + TimeString(v)
    else "Pomodoro"
  }

  /** The title shows the clock exactly when the timer is running or paused,
      behind the session's emoji or the pause symbol and a space; otherwise
      it is the app's name, which no running or paused title equals. */
  lemma TitleShowsClock(v: TimerState)
    requires WellFormed(v)
    ensures var t := MenuBarTitle(v);
      var mark := if v.isRunning then SessionTypeEmoji(v) else PausedMark;
      (v.isRunning || v.isPaused) ==>
        |t| == |mark| + 1 + |TimeString(v)| && t[..|mark|] == mark && t[|mark|] == ' ' && t[|mark| + 1..] == TimeString(v)
    ensures MenuBarTitle(v) == "Pomodoro" <==> !v.isRunning && !v.isPaused
  {
    var t := MenuBarTitle(v);
    if v.isRunning || v.isPaused {
      assert t[0] != 'P';
    }
  }

  /** Once paused, the title is the pause symbol and the remaining time. */
  lemma TitleAfterPause(v: TimerState)
    requires WellFormed(v)
    ensures MenuBarTitle(Pause(v)) == PausedMark + " " + TimeString(v)
  {
  }

  /** Once started, the title is the session's emoji and the remaining
      time, which starting does not change. */
  lemma TitleAfterStart(v: TimerState, now: int)
    requires WellFormed(v)
    ensures MenuBarTitle(Start(v, now)) == SessionTypeEmoji(Start(v, now)) + " " + TimeString(v)
  {
    var w := Start(v, now);
    assert w.isRunning && w.remaining == v.remaining;
    assert TimeString(w) == TimeString(v);
  }

  /** After a reset or the end of the master session the title is the app's
      name. */
  lemma TitleAfterStop(v: TimerState, now: int)
    requires WellFormed(v)
    ensures MenuBarTitle(Reset(v, now)) == "Pomodoro"
    ensures MenuBarTitle(EndMasterSession(v, now)) == "Pomodoro"
  {
  }

  // --- cleanupOldTasks -------------------------------------------------------------

  /** The app's `cleanupOldTasks()`: fetches the completed tasks stamped more
      than 24 hours before `now` and deletes each. Unlike the timer's sweep
      it does not touch the timer's current task. */
  method CleanupOldTasks(context: ModelContext, now: int)
    modifies context
    ensures context.tasks == old(Survivors(context.tasks, Cutoff(now)))
    ensures context.sessions == old(context.sessions) && context.completions == old(context.completions)
  {
    var cutoffDate := Cutoff(now);
    var oldTasks := ExpiredTasks(context.tasks, cutoffDate);
    ghost var before := context.tasks;
    KeepAbsent(before, []);
    for i := 0 to |oldTasks|
      invariant context.tasks == Keep(before, oldTasks[..i])
      invariant context.sessions == old(context.sessions) && context.completions == old(context.completions)
    {
      var task := oldTasks[i];
      context.DeleteTask(task);
      KeepKeep(before, oldTasks[..i], [task]);
      assert oldTasks[..i + 1] == oldTasks[..i] + [task];
    }
    assert oldTasks[..|oldTasks|] == oldTasks;
    KeepExpired(before, oldTasks, cutoffDate);
  }
}
