# DOTpomodoro, modelled in Dafny

DOTpomodoro is a macOS menu-bar Pomodoro timer. This project models its core and proves properties of that model:

- **The timer object.** It runs work sessions, short breaks and long breaks. It counts completed sessions per day and per master session, and it persists its settings and daily counters.
- **Session records and daily tallies.** These are what the timer hands to the store.
- **Tasks.** Their priorities, colours and ranks.
- **Figures derived from the store.** The statistics window's today / week / streak figures.
- **The task list.** Its order, and what the check box, swipe-to-delete, the Add button and the auto-delete countdown do.
- **The `Color(hex:)` parser and the timer button's label.**
- **The hot key's `fourCharCode`.**
- **The app's menu-bar title and its 24-hour sweep of old completed tasks.**

Time is an integer number of milliseconds. A day is `t / 86400000`: every day is a fixed 24-hour span. Each command receives the moment it runs as a parameter `now`.

Module structure follows the source files:

- `Common`: shared vocabulary. Options, bytes, time units, Swift's truncating division, two-digit padding, UTF-8 encoding, trimming, filtering.
- `Sessions`: `PomodoroSession.swift`, covering `SessionType`, the `PomodoroSession` record and `ProductivityStats`.
- `Tasks`: `TaskItem.swift`, covering `TaskItem` and `TaskPriority`.
- `Store`: the SwiftData model context. It holds three collections (session records, tasks, task completions) and the fetch of expired tasks.
- `TimerSpec`: `PomodoroTimer.swift` as pure step functions over a value `TimerState`. `TimerProperties` holds what those functions promise.
- `Timer`: the `PomodoroTimer` class. Its fields are updated in place, and every method is proved to move `View()` as the matching `TimerSpec` function does.
- `Stats`: `StatsView.swift`.
- `TaskList`: `ContentView.swift`.
- `MenuBar`: `MenuBarView.swift`.
- `HotKey`: `GlobalHotKeyManager.swift`.
- `App`: `DOTpomodoroApp.swift`.
- `SourceText`: the emoji literals as they stand in the source files (see Findings).

Some behaviour of the code may be unexpected. The model follows the code in each case:

- `reset()` leaves the timer neither running nor paused. A work session that completes without automatic breaks leaves it paused, so the button reads "Resume".
- `skipBreak()` counts a master break even when no record is held. It opens a work record even while paused.
- When a quick break completes, the master break count goes up, even though no master session is running.
- `setDurations` does not touch the held record's duration.
- `progress` measures a quick break against the configured break length. It can therefore leave the range from 0 to 1.
- Stored lengths and cycles that are not positive are read back as the defaults.
- The saved remaining time, running flag and break flag are never read back.
- A `TaskItem` created with `isDone: true` has no completion stamp.
- The app's own 24-hour sweep does not unbind the timer from a deleted task. The timer's sweep does.

## Model

| member | source | states |
|---|---|---|
| Sessions.SessionTypeNamesDistinct | DOTpomodoro/PomodoroSession.swift:42-53 | distinct session kinds have distinct stored names and distinct emoji |
| Sessions.OpenedIsOpen | DOTpomodoro/PomodoroSession.swift:15-24 | a new record is neither completed nor interrupted, has no end time and measures 0 |
| Sessions.FinaliseOpen | DOTpomodoro/PomodoroSession.swift:26-39 | completing or interrupting an open record closes it with the one matching mark; its actual duration becomes now minus its start |
| Sessions.PomodoroSession.constructor | DOTpomodoro/PomodoroSession.swift:15-24 | the new object holds the open record of the given duration, kind and task, started now |
| Sessions.PomodoroSession.Complete | DOTpomodoro/PomodoroSession.swift:26-29 | stamps the end time and sets the completed mark; the interrupted mark is untouched |
| Sessions.PomodoroSession.Interrupt | DOTpomodoro/PomodoroSession.swift:31-34 | stamps the end time and sets the interrupted mark; the completed mark is untouched |
| Sessions.AddFinalised | DOTpomodoro/PomodoroSession.swift:89-99 | an interrupted record leaves the tally alone; a completed work record adds one session and its span; a completed break adds one break |
| Sessions.AddSessionsCounts | DOTpomodoro/PomodoroSession.swift:89-99 | folding addSession counts exactly the completed work records and their durations and the completed breaks, and leaves the task and streak counters alone |
| Sessions.ProductivityStats.constructor | DOTpomodoro/PomodoroSession.swift:80-87 | the record is for the day containing now and all its counters are zero |
| Sessions.ProductivityStats.AddSession | DOTpomodoro/PomodoroSession.swift:89-99 | the counters move as the tally function says; the date is kept |
| Sessions.ProductivityStats.AddCompletedTask | DOTpomodoro/PomodoroSession.swift:101-103 | the completed-task counter goes up by one and nothing else changes |
| Tasks.SortOrderRanks | DOTpomodoro/TaskItem.swift:47-54 | ranks run urgent 0, high 1, medium 2, low 3; equal rank means the same priority |
| Tasks.ColorsDistinct | DOTpomodoro/TaskItem.swift:32-45 | each colour is six hexadecimal digits; colours and raw names tell the priorities apart |
| Tasks.TaskItem.constructor | DOTpomodoro/TaskItem.swift:15-24 | fields as given, created now, no completion stamp, one estimated and no actual pomodoro, no tags |
| Tasks.TaskItem.Complete | DOTpomodoro/TaskItem.swift:26-29 | done and stamped now; every other field kept |
| Store.KeepMembers | DOTpomodoro/PomodoroTimer.swift:581-588 | deleting a list of objects keeps exactly those not in the list |
| Store.KeepKeep | DOTpomodoro/PomodoroTimer.swift:581-588 | deleting one list and then another is deleting both |
| Store.KeepAbsent | DOTpomodoro/PomodoroTimer.swift:581-588 | deleting nothing, or only absent objects, changes nothing |
| Store.ExpiredTasks | DOTpomodoro/PomodoroTimer.swift:571-578 | the fetch returns stored tasks that are done, stamped, and stamped before the cutoff, and every such task |
| Store.KeepExpired | DOTpomodoro/PomodoroTimer.swift:578-588 | deleting every fetched task leaves exactly the tasks that are not expired |
| Store.SurvivorsSpared | DOTpomodoro/PomodoroTimer.swift:571-588 | a task survives the sweep iff it was stored and is not done, not stamped or stamped at or after the cutoff |
| Store.LastWithTitle | DOTpomodoro/ContentView.swift:86-98 | the last completion with the title, or none when no completion carries that title |
| Store.ModelContext.constructor | DOTpomodoro/DOTpomodoroApp.swift:14-22 | the store as created on first launch holds no records, tasks or completions (the container is persistent, so later launches start from what was saved; loading is not modelled) |
| Store.ModelContext.InsertSession | DOTpomodoro/PomodoroTimer.swift:384-389 | the record is appended; tasks and completions kept |
| Store.ModelContext.InsertTask | DOTpomodoro/ContentView.swift:211-217 | the task is appended unless already stored; nothing else changes |
| Store.ModelContext.DeleteTask | DOTpomodoro/PomodoroTimer.swift:581-588 | the task is no longer stored and every other task stays in order |
| Store.ModelContext.InsertCompletion | DOTpomodoro/ContentView.swift:69-76 | the completion is appended; nothing else changes |
| Store.ModelContext.DeleteCompletion | DOTpomodoro/ContentView.swift:86-98 | exactly the completion at the index is removed |
| Timer.PomodoroTimer.constructor | DOTpomodoro/PomodoroTimer.swift:58-102 | the timer starts as Initial of the stored defaults, with no store attached |
| Timer.PomodoroTimer.ResetDailyStatsIfNeeded | DOTpomodoro/PomodoroTimer.swift:104-118 | the state moves as the reset-daily-counters step function says |
| Timer.PomodoroTimer.SaveState | DOTpomodoro/PomodoroTimer.swift:504-510 | the defaults receive the five state values; nothing else changes |
| Timer.PomodoroTimer.SaveSettings | DOTpomodoro/PomodoroTimer.swift:512-520 | the defaults receive the seven settings; nothing else changes |
| Timer.PomodoroTimer.Start | DOTpomodoro/PomodoroTimer.swift:128-161 | the state moves as TimerSpec.Start; see StartEffect |
| Timer.PomodoroTimer.Pause | DOTpomodoro/PomodoroTimer.swift:163-169 | the state moves as TimerSpec.Pause; see PauseEffect |
| Timer.PomodoroTimer.Toggle | DOTpomodoro/PomodoroTimer.swift:171-173 | the state moves as TimerSpec.Toggle; see ToggleFlips |
| Timer.PomodoroTimer.Reset | DOTpomodoro/PomodoroTimer.swift:175-197 | the state moves as TimerSpec.Reset; the held record, interrupted, is appended to an attached store |
| Timer.PomodoroTimer.SkipBreak | DOTpomodoro/PomodoroTimer.swift:199-225 | the state moves as TimerSpec.SkipBreak; the held break record, completed, is appended to an attached store |
| Timer.PomodoroTimer.EndMasterSession | DOTpomodoro/PomodoroTimer.swift:227-265 | returns the master figures from before the call; the state moves as TimerSpec.EndMasterSession; the record, interrupted, is stored |
| Timer.PomodoroTimer.SetCurrentTask | DOTpomodoro/PomodoroTimer.swift:267-273 | binds the task; the state moves as TimerSpec.SetCurrentTask |
| Timer.PomodoroTimer.SetDurations | DOTpomodoro/PomodoroTimer.swift:275-290 | the state moves as TimerSpec.SetDurations; see SetDurationsEffect |
| Timer.PomodoroTimer.SetAutoStart | DOTpomodoro/PomodoroTimer.swift:292-296 | both flags stored and saved |
| Timer.PomodoroTimer.SetNotifications | DOTpomodoro/PomodoroTimer.swift:298-301 | the flag stored and saved |
| Timer.PomodoroTimer.SetSessionsUntilLongBreak | DOTpomodoro/MenuBarView.swift:447 | the settings sheet's direct assignment of the cycle, not saved |
| Timer.PomodoroTimer.SetQuickBreak | DOTpomodoro/PomodoroTimer.swift:303-339 | the state moves as TimerSpec.SetQuickBreak; the held record, interrupted, is stored |
| Timer.PomodoroTimer.CleanupOldTasks | DOTpomodoro/PomodoroTimer.swift:565-597 | the store keeps exactly the survivors; the timer drops its task exactly when that task was swept |
| Timer.PomodoroTimer.SessionCompleted | DOTpomodoro/PomodoroTimer.swift:382-459 | the state moves as TimerSpec.SessionCompleted with the sweep's outcome; the completed record is stored |
| Timer.PomodoroTimer.Tick | DOTpomodoro/PomodoroTimer.swift:345-380 | the state moves as TimerSpec.Tick with the sweep's outcome; see TickTracks and TickFallback |
| Timer.PomodoroTimer.Track | DOTpomodoro/PomodoroTimer.swift:355-374 | returns max(0, duration - elapsed) and updates remaining only on a change of at least 0.1 s |
| TimerProperties.StartEffect | DOTpomodoro/PomodoroTimer.swift:128-161 | start on a running timer changes nothing; otherwise: running, unpaused, start time now, master session begun if none, a record opened for the current kind, length and task if none held; countdown, counters and settings kept |
| TimerProperties.PauseEffect | DOTpomodoro/PomodoroTimer.swift:163-169 | stopped, paused, start time dropped; only the saved defaults change besides |
| TimerProperties.PauseIdempotent | DOTpomodoro/PomodoroTimer.swift:163-169 | pausing twice is pausing once |
| TimerProperties.ToggleFlips | DOTpomodoro/PomodoroTimer.swift:171-173 | toggle inverts running; a running timer ends paused, a stopped one unpaused |
| TimerProperties.InterruptedRecords | DOTpomodoro/PomodoroTimer.swift:177-184 | the store receives one record iff one was held, marked interrupted at now and not completed |
| TimerProperties.CompletedRecords | DOTpomodoro/PomodoroTimer.swift:384-389 | the store receives one record iff one was held, marked completed at now and not interrupted |
| TimerProperties.ResetEffect | DOTpomodoro/PomodoroTimer.swift:175-197 | neither running nor paused, no record, full length of the current kind (long break, break or work); kind, counters, master figures and settings kept |
| TimerProperties.SkipBreakEffect | DOTpomodoro/PomodoroTimer.swift:199-225 | outside a break nothing changes; during one: one more master break, work of full length, a fresh work record for the task, run/pause state and counters kept |
| TimerProperties.EndMasterSessionEffect | DOTpomodoro/PomodoroTimer.swift:227-265 | reports the master figures and elapsed time as they stood, then an idle work timer of full length with all master figures zero; counters and settings kept |
| TimerProperties.QuickBreakEffect | DOTpomodoro/PomodoroTimer.swift:303-339 | a running break of minutes*60 s from now with a fresh short-break record bound to no task; master figures, counters and settings kept; only remaining and running saved |
| TimerProperties.SetCurrentTaskEffect | DOTpomodoro/PomodoroTimer.swift:267-273 | the task is bound; a held work record takes its id and title, a break record is left alone, nothing else changes |
| TimerProperties.SetDurationsEffect | DOTpomodoro/PomodoroTimer.swift:275-290 | lengths stored and saved (long break only when given); a stopped timer goes back to full-length work, a running one keeps its countdown; the record is kept |
| TimerProperties.LongBreaksCount | DOTpomodoro/PomodoroTimer.swift:341-343 | the rule picks a long break after exactly n / cycle of the work completions 1 through n; TimerProperties.EveryCycleEndsLong carries this over to the timer's own completions |
| TimerProperties.RoundStep | DOTpomodoro/PomodoroTimer.swift:382-437 | one round from work (a completed work session, then its completed break) picks a long break exactly when the incremented count closes a cycle, and returns to work with one more completion and the same cycle |
| TimerProperties.LongBreaksPickedCount | DOTpomodoro/PomodoroTimer.swift:382-437 | over n rounds from work the timer's own completions pick as many long breaks as the rule counts among the work completions passed through |
| TimerProperties.EveryCycleEndsLong | DOTpomodoro/PomodoroTimer.swift:341-343 | from a day with no work completed, n rounds of the timer bring exactly n / sessionsUntilLongBreak long breaks |
| TimerProperties.WorkCompletedEffect | DOTpomodoro/PomodoroTimer.swift:382-426 | a completed work session counts itself (daily, cycle, master, task pomodoros, focus time) before choosing a long break iff the new count is a positive multiple of the cycle; runs on into the break or pauses without a record |
| TimerProperties.BreakCompletedEffect | DOTpomodoro/PomodoroTimer.swift:427-458 | a completed break counts one master break and switches to full-length work, running on with a record for the task or pausing without one; daily counters kept |
| TimerProperties.TickTracks | DOTpomodoro/PomodoroTimer.swift:355-379 | the measured time left is never negative nor above the duration; remaining moves only on a change of at least 0.1 s; completion iff at most 0.1 s is left |
| TimerProperties.TickFallback | DOTpomodoro/PomodoroTimer.swift:346-354 | without a start time a tick removes one second while time is left, and completes the session otherwise |
| TimerProperties.ConsistentInitial | DOTpomodoro/PomodoroTimer.swift:58-102 | the launched timer is consistent, stopped, unpaused and on work |
| TimerProperties.ConsistentStart | DOTpomodoro/PomodoroTimer.swift:128-161 | start keeps the consistency invariant (a running timer holds an open record and a start time; a stopped one none) |
| TimerProperties.ConsistentPause | DOTpomodoro/PomodoroTimer.swift:163-169 | pause keeps the consistency invariant |
| TimerProperties.ConsistentToggle | DOTpomodoro/PomodoroTimer.swift:171-173 | toggle keeps the consistency invariant |
| TimerProperties.ConsistentReset | DOTpomodoro/PomodoroTimer.swift:175-197 | reset keeps the consistency invariant |
| TimerProperties.ConsistentSkipBreak | DOTpomodoro/PomodoroTimer.swift:199-225 | skipBreak keeps the consistency invariant |
| TimerProperties.ConsistentEndMasterSession | DOTpomodoro/PomodoroTimer.swift:227-265 | endMasterSession keeps the consistency invariant |
| TimerProperties.ConsistentSetCurrentTask | DOTpomodoro/PomodoroTimer.swift:267-273 | setCurrentTask keeps the consistency invariant |
| TimerProperties.ConsistentSettings | DOTpomodoro/PomodoroTimer.swift:275-301 | the setting commands, and a positive cycle, keep the consistency invariant |
| TimerProperties.ConsistentQuickBreak | DOTpomodoro/PomodoroTimer.swift:303-339 | setQuickBreak keeps the consistency invariant |
| TimerProperties.ConsistentTick | DOTpomodoro/PomodoroTimer.swift:345-380 | a tick of a running timer keeps the consistency invariant, completing or not |
| TimerProperties.SessionCompletedConsistent | DOTpomodoro/PomodoroTimer.swift:382-459 | completion keeps the invariant; the timer runs on iff the next kind starts automatically |
| TimerProperties.SettingsRoundTrip | DOTpomodoro/PomodoroTimer.swift:58-80 | settings saved with positive lengths and cycle come back exactly at the next launch |
| TimerProperties.NonPositiveReloadsDefault | DOTpomodoro/PomodoroTimer.swift:60-62 | a stored work length that is not positive reloads as 25 minutes |
| TimerProperties.SavedProgressNotRestored | DOTpomodoro/PomodoroTimer.swift:86-89 | whatever was saved, the next launch is stopped, on work, full length, without a record |
| TimerProperties.DailyCountersReload | DOTpomodoro/PomodoroTimer.swift:104-118 | saved daily counters come back the same day and are zeroed, also in the defaults, on a later day |
| TimerProperties.TimeStringFormat | DOTpomodoro/PomodoroTimer.swift:522-526 | below 100 minutes the text is "MM:SS" whose digits spell the whole minutes and leftover seconds |
| TimerProperties.ProgressBounded | DOTpomodoro/PomodoroTimer.swift:528-533 | with the countdown within its kind's length, elapsed lies between 0 and the length and elapsed plus remaining is the length |
| TimerProperties.QuickBreakProgressNegative | DOTpomodoro/PomodoroTimer.swift:528-533 | a quick break longer than the break length shows negative progress |
| TimerProperties.SessionLabels | DOTpomodoro/PomodoroTimer.swift:535-557 | on work: "Focus Time" and the work emoji; in a master session's break: the name and emoji of the break kind the rule picks; otherwise "Quick Break" |
| TimerProperties.QuickBreakAftermath | DOTpomodoro/PomodoroTimer.swift:421-447 | a completed quick break still counts a master break, and the work it runs into has its break labelled a quick break |
| Stats.DayMatchesTally | DOTpomodoro/StatsView.swift:256-261 | a day's work count and focus time agree with the ProductivityStats tally of that day's records |
| Stats.TodayStats | DOTpomodoro/StatsView.swift:251-269 | counts are between 0 and the number of records or completions; the task count is zero exactly when no completion is stamped today |
| Stats.TodayCounts | DOTpomodoro/StatsView.swift:251-269 | exactly today's completed work records and their durations are counted, as the daily tally counts them; the task count equals the tally after `addCompletedTask` for each completion stamped today |
| Stats.CompletionsCounted | DOTpomodoro/PomodoroSession.swift:101-103 | feeding completions to `addCompletedTask` adds one task per completion stamped on the day and changes no other figure |
| Stats.WeeklyData | DOTpomodoro/StatsView.swift:293-316 | seven points, oldest first, the last one today, each with that day's completed work count and duration |
| Stats.Last7Days | DOTpomodoro/StatsView.swift:452-471 | seven entries, oldest first, each with that day's completed work count; `[safe: k]` finds an entry exactly for k in 0..6 |
| Stats.StreakBars | DOTpomodoro/StatsView.swift:182-196 | the seven bars show each day's completed work sessions, oldest first, highlighted exactly when there are some; no index falls out of range |
| Stats.WeekEndsToday | DOTpomodoro/StatsView.swift:251-316 | the week's last point agrees with today's figures |
| Stats.CurrentStreak | DOTpomodoro/StatsView.swift:473-495 | every day of the streak ending today has completed work, and the day before it has none |
| Stats.WorkDaysSpec | DOTpomodoro/StatsView.swift:499-504 | the sorted set of days is strictly increasing and holds exactly the days with completed work |
| Stats.LongestRunSpec | DOTpomodoro/StatsView.swift:506-527 | the longest run bounds each run of consecutive days and is attained |
| Stats.BestStreak | DOTpomodoro/StatsView.swift:497-529 | the loop returns the longest run of consecutive work days |
| Stats.BestStreakZero | DOTpomodoro/StatsView.swift:506 | the best streak is 0 iff no record is a completed work session |
| Stats.BestStreakBounds | DOTpomodoro/StatsView.swift:497-529 | every run of consecutive work days is at most the best streak |
| Stats.BestStreakAttained | DOTpomodoro/StatsView.swift:497-529 | with any work, some run of consecutive work days has the length of the best streak |
| Stats.StreakWithinBest | DOTpomodoro/StatsView.swift:473-529 | the current streak never exceeds the best streak |
| Common.Pad2Spells | DOTpomodoro/PomodoroTimer.swift:525 | "%02d" of 0..99 is two digits spelling the number |
| Common.Utf8 | DOTpomodoro/GlobalHotKeyManager.swift:99 | a string encodes to between one and four bytes per character |
| Common.Utf8Ascii | DOTpomodoro/GlobalHotKeyManager.swift:99 | an ASCII string encodes to its character codes, one byte each |
| Common.TrimEmptyIff | DOTpomodoro/ContentView.swift:212 | trimming leaves nothing iff every character is trimmed |
| TaskList.BeforeOrder | DOTpomodoro/ContentView.swift:14-27 | the comparator is asymmetric and its "not after" is transitive |
| TaskList.SortedTasks | DOTpomodoro/ContentView.swift:13-28 | the sorted list is a permutation of the tasks |
| TaskList.InsertSpec | DOTpomodoro/ContentView.swift:14-27 | inserting into an ordered list keeps it ordered |
| TaskList.SortedTasksOrdered | DOTpomodoro/ContentView.swift:13-28 | no task of the sorted list comes after one it should precede |
| TaskList.OrderedKeys | DOTpomodoro/ContentView.swift:14-27 | in an ordered list incomplete tasks precede done ones, then higher priority, then newer |
| TaskList.ToggleDone | DOTpomodoro/ContentView.swift:66-100 | checking stamps the task, appends its completion and unbinds the timer from it; unchecking clears the stamp and removes the last completion with its title; the task stays stamped iff done |
| TaskList.ChosenMembers | DOTpomodoro/ContentView.swift:171-183 | a swipe chooses a task iff it sits at a swiped row and is not done |
| TaskList.Discard | DOTpomodoro/ContentView.swift:177-182 | the task is deleted; the timer is unbound iff it was bound to it |
| TaskList.DeleteRow | DOTpomodoro/ContentView.swift:172-183 | one row deletes its task iff incomplete, and unbinds the timer when that task is its own |
| TaskList.DeleteRows | DOTpomodoro/ContentView.swift:171-185 | the store keeps exactly the tasks not chosen from the sorted list; the timer is unbound iff its task was chosen |
| TaskList.DeleteRowsSpares | DOTpomodoro/ContentView.swift:175-183 | a swipe never deletes a done task and deletes every incomplete swiped one |
| TaskList.AddTask | DOTpomodoro/ContentView.swift:211-217 | a blank title adds nothing; any other adds an incomplete task of the chosen priority, untrimmed, estimated at one pomodoro with none spent and no tags, and resets the field and picker |
| TaskList.AutoDeleteCountdown | DOTpomodoro/ContentView.swift:326-338 | (0, 0) once 24 hours have passed; otherwise minutes 0..59 and hours:minutes is the whole minutes left, at most 24:00 |
| TaskList.AutoDeleteMatchesSweep | DOTpomodoro/ContentView.swift:326-338 | a task the sweep deletes shows (0, 0); a task showing time left survives the sweep |
| MenuBar.HexDigitValue | DOTpomodoro/MenuBarView.swift:832 | a hexadecimal digit is worth 0..15 |
| MenuBar.HexDigitChar | DOTpomodoro/MenuBarView.swift:832 | the digit for 0..15 reads back as that value |
| MenuBar.HexPrefix | DOTpomodoro/MenuBarView.swift:832 | the scanned digits are the longest run of hexadecimal digits at the front |
| MenuBar.ScanHexBound | DOTpomodoro/MenuBarView.swift:832 | the scanned value has no more digits than the string has characters |
| MenuBar.HexValueAppend | DOTpomodoro/MenuBarView.swift:832 | reading two digit runs in turn shifts the first by the second's width |
| MenuBar.ChannelsInRange | DOTpomodoro/MenuBarView.swift:829-851 | for every string, each of the four channels is a value in 0..255 |
| MenuBar.TrimAlphanumeric | DOTpomodoro/MenuBarView.swift:830 | an alphanumeric string is not trimmed |
| MenuBar.ReadWhole | DOTpomodoro/MenuBarView.swift:829-851 | a string of hexadecimal digits is read in full and switched on its length |
| MenuBar.Hex6RoundTrip | DOTpomodoro/MenuBarView.swift:837-838 | six digits of r, g, b read back as the opaque colour (255, r, g, b) |
| MenuBar.Hex8RoundTrip | DOTpomodoro/MenuBarView.swift:839-840 | eight digits of a, r, g, b read back as (a, r, g, b) |
| MenuBar.Hex3RoundTrip | DOTpomodoro/MenuBarView.swift:835-836 | three digits read back as the opaque colour of each digit times 17 |
| MenuBar.Channels6 | DOTpomodoro/MenuBarView.swift:837-838 | the 24-bit case splits its value back into three channels |
| MenuBar.Channels8 | DOTpomodoro/MenuBarView.swift:839-840 | the 32-bit case splits its value back into four channels |
| MenuBar.Channels3 | DOTpomodoro/MenuBarView.swift:835-836 | the 12-bit case multiplies each digit by 17 |
| MenuBar.HashIgnored | DOTpomodoro/MenuBarView.swift:830 | a leading "#" does not change the colour |
| MenuBar.PriorityColors | DOTpomodoro/ContentView.swift:116 | each priority's colour string reads back as the opaque colour of its three digit pairs |
| MenuBar.AccentColor | DOTpomodoro/MenuBarView.swift:13 | the accent reads back as (255, 0xF0, 0x71, 0x67), the high priority's colour |
| MenuBar.CreamColor | DOTpomodoro/MenuBarView.swift:14 | the text colour reads back as (255, 0xFD, 0xFC, 0xDC) |
| MenuBar.SwitchTintColor | DOTpomodoro/MenuBarView.swift:665 | the switch tint reads back as (255, 0xDB, 0xF9, 0xB8) |
| MenuBar.ButtonFollowsCommands | DOTpomodoro/MenuBarView.swift:865-867 | "Pause" after start, "Resume" after pause, "Start" after reset or end of the master session; toggle swaps "Pause" and the other two |
| HotKey.Shl8 | DOTpomodoro/GlobalHotKeyManager.swift:100 | a 32-bit left shift by 8: the value times 256 modulo 2^32, a multiple of 256 |
| HotKey.Fold | DOTpomodoro/GlobalHotKeyManager.swift:98-102 | the packed code is a 32-bit value |
| HotKey.FourCharCode | DOTpomodoro/GlobalHotKeyManager.swift:96-103 | the loop returns the bytes of the UTF-8 encoding packed one after another, a 32-bit value |
| HotKey.FoldFour | DOTpomodoro/GlobalHotKeyManager.swift:96-103 | four bytes pack big-endian, the first in the top byte |
| HotKey.FoldFourInjective | DOTpomodoro/GlobalHotKeyManager.swift:96-103 | equal codes of four bytes come from equal bytes |
| HotKey.Unpack | DOTpomodoro/GlobalHotKeyManager.swift:96-103 | the four bytes can be read back from the code |
| HotKey.ShiftFour | DOTpomodoro/GlobalHotKeyManager.swift:100 | a fifth byte pushes the first out of the code |
| HotKey.FoldLastFour | DOTpomodoro/GlobalHotKeyManager.swift:97-102 | with more than four bytes only the last four determine the code |
| HotKey.SignatureCode | DOTpomodoro/GlobalHotKeyManager.swift:30 | "POMD" packs to 0x504F4D44 |
| HotKey.AsciiCodesDistinct | DOTpomodoro/GlobalHotKeyManager.swift:96-103 | two four-character ASCII strings with equal codes are equal |
| App.TitleShowsClock | DOTpomodoro/DOTpomodoroApp.swift:71-81 | while running or paused the title is the emoji or pause mark, a space and the clock; it is "Pomodoro" iff neither |
| App.TitleAfterPause | DOTpomodoro/DOTpomodoroApp.swift:75-77 | once paused the title is the pause mark and the unchanged clock |
| App.TitleAfterStart | DOTpomodoro/DOTpomodoroApp.swift:72-74 | once started the title is the session's emoji and the unchanged clock |
| App.TitleAfterStop | DOTpomodoro/DOTpomodoroApp.swift:78-80 | after reset or the end of the master session the title is "Pomodoro" |
| App.CleanupOldTasks | DOTpomodoro/DOTpomodoroApp.swift:84-108 | the store keeps exactly the survivors of the 24-hour sweep; sessions and completions kept |
| SourceText.SessionEmojiIsMacRoman | DOTpomodoro/PomodoroSession.swift:49-51 | each literal is the UTF-8 encoding of the intended emoji read as Mac Roman, and differs from it |
| SourceText.TimerEmojiIsCp1252 | DOTpomodoro/PomodoroTimer.swift:535-545 | each literal is the UTF-8 encoding of the intended emoji read as Windows-1252, and differs from it |
| SourceText.WorkEmojiDisagree | DOTpomodoro/PomodoroTimer.swift:543 | as written, the title's work emoji differs from the work record's emoji, which the corrected definitions share |

## Left out

- Sounds, notifications (`sendNotification`, the permission request) and the toggle-timer notification subscription: these are I/O with no state the core reads back.
- The one-second `Timer.publish` subscription: the tick handler is a method the caller invokes. `Timer.PomodoroTimer.Tick` requires a running timer, because the subscription exists exactly then.
- The clock: `Date()` is the parameter `now`. One `now` serves a whole command, where Swift reads the clock several times.
- The calendar: days are fixed 24-hour spans counted from the epoch, with no time zone or daylight saving. Weekday names are left out.
- Floating point: durations are integer milliseconds. `progress` is a pair (elapsed, total) and is not divided. Colours are 0..255 channels and are not divided by 255.
- Integer overflow of Swift's `Int`: integers are unbounded except in `fourCharCode`, whose 32-bit wrap-around is modelled.
- SwiftData: fetching, saving and failures (`try?`, `do`/`catch`). The store is three sequences in insertion order, and fetches return that order.
- `focusSessionsText`, the notification titles and the SwiftUI views other than the members listed are left out. The views' state variables are returned to the caller as values.
- Timer.PomodoroTimer: holds its open session record as a value, not as a shared `PomodoroSession` object. No other object refers to it until it is stored.
- TaskList.SortedTasks: is an insertion sort under the source's comparator. Its order among tasks of equal keys (equal creation times) is not claimed to match Swift's sort.
- TaskList.DeleteRows: computes the sorted list once, before the deletions, and follows the index order it is given.
- MenuBar.IsAlphanumeric: covers ASCII letters and digits only, not all of Unicode's alphanumerics. A string's count is its number of characters, not of grapheme clusters.
- MenuBar.ScanHex: does not model `scanHexInt64`'s saturation at 2^64. This only matters for more than 16 digits, which no colour string in the app has.
- HotKey.FourCharCode: does not require four characters. The source's `assert(count == 4)` is a debug-only check, so every string is covered. `HotKey.FoldLastFour` shows what longer encodings do.
- `LaunchAtLoginManager`, `SoundManager`, `PomodoroCommands`, the settings and history views and `Item.swift` are not part of this model.

## Findings

| source | as written | input that shows it | evidently intended | confidence | as-written member | corrected member |
|---|---|---|---|---|---|---|
| DOTpomodoro/PomodoroSession.swift:49-51 | the emoji literals are the UTF-8 bytes of 🍅, ☕️ and 🌴 decoded as Mac Roman (e.g. U+F8FF followed by `üçÖ`) | `SessionType.work.emoji` | the emoji U+1F345, U+2615 U+FE0F and U+1F334 | not executed | SourceText.SessionEmojiAsWritten (shown by SourceText.SessionEmojiIsMacRoman) | Sessions.SessionType.Emoji (proved distinct by Sessions.SessionTypeNamesDistinct) |
| DOTpomodoro/PomodoroTimer.swift:539-543 | the menu-bar emoji literals are the UTF-8 bytes of 🧘, 🌴, ☕️ and 🍅 decoded as Windows-1252, with the undefined bytes dropped (e.g. `ðŸ…`) | a running work session's `sessionTypeEmoji` | the same emoji as the session records | not executed | SourceText.TimerEmojiAsWritten (shown by SourceText.TimerEmojiIsCp1252 and SourceText.WorkEmojiDisagree) | TimerSpec.SessionTypeEmoji (proved by TimerProperties.SessionLabels) |
