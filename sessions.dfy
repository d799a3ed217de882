/** PomodoroSession.swift: the record of one work or break session, its
    lifecycle (open, then completed or interrupted), and the daily tally
    ProductivityStats keeps of completed sessions. */
module Sessions {
  import opened Common

  /** The kind of a session. A quick break is recorded as ShortBreak. */
  datatype SessionType = Work | ShortBreak | LongBreak {
    function RawValue(): string {
      match this
      case Work => "Work"
      case ShortBreak => "Short Break"
      case LongBreak => "Long Break"
    }

    function Emoji(): string {
      match this
      case Work => "\U{1F345}"
      case ShortBreak => "\U{2615}\U{FE0F}"
      case LongBreak => "\U{1F334}"
    }
  }

  /** The kinds are told apart by their stored names and by their emoji. */
  lemma SessionTypeNamesDistinct(s: SessionType, t: SessionType)
    ensures s != t ==> s.RawValue() != t.RawValue() && s.Emoji() != t.Emoji()
  {
  }

  /** The value of a session record: what the store keeps once the record is
      finalised. Times are timestamps in milliseconds. */
  datatype Record = Record(
    startTime: int,
    endTime: Option<int>,
    duration: int,
    sessionType: SessionType,
    taskId: Option<string>,
    taskTitle: Option<string>,
    wasCompleted: bool,
    wasInterrupted: bool)
  {
    /** Neither completed nor interrupted yet. */
    predicate IsOpen() {
      endTime.None? && !wasCompleted && !wasInterrupted
    }

    /** `complete()`: stamps the end time and marks the record completed. */
    function Complete(now: int): Record {
      this.(endTime := Some(now), wasCompleted := true)
    }

    /** `interrupt()`: stamps the end time and marks the record interrupted. */
    function Interrupt(now: int): Record {
      this.(endTime := Some(now), wasInterrupted := true)
    }

    /** `actualDuration`: the span from start to end, 0 while open. */
    function ActualDuration(): int {
      match endTime
      case None => 0
      case Some(e) => e - startTime
    }
  }

  /** `PomodoroSession(duration:sessionType:taskId:taskTitle:)` created at `now`. */
  function Opened(now: int, duration: int, sessionType: SessionType,
                  taskId: Option<string>, taskTitle: Option<string>): Record
  {
    Record(now, None, duration, sessionType, taskId, taskTitle, false, false)
  }

  /** A new record is open and has no measured duration yet. */
  lemma OpenedIsOpen(now: int, duration: int, t: SessionType, id: Option<string>, title: Option<string>)
    ensures Opened(now, duration, t, id, title).IsOpen()
    ensures Opened(now, duration, t, id, title).ActualDuration() == 0
  {
  }

  /** Finalising an open record closes it, the span becomes `now - startTime`,
      and each mark leaves the other one alone: a completed record is not
      interrupted and vice versa. */
  lemma FinaliseOpen(r: Record, now: int)
    requires r.IsOpen()
    ensures !r.Complete(now).IsOpen() && !r.Interrupt(now).IsOpen()
    ensures r.Complete(now).wasCompleted && !r.Complete(now).wasInterrupted
    ensures r.Interrupt(now).wasInterrupted && !r.Interrupt(now).wasCompleted
    ensures r.Complete(now).ActualDuration() == now - r.startTime
    ensures r.Interrupt(now).ActualDuration() == now - r.startTime
  {
  }

  /** The reference-type session the timer holds while it runs. */
  class PomodoroSession {
    var startTime: int
    var endTime: Option<int>
    var duration: int
    var sessionType: SessionType
    var taskId: Option<string>
    var taskTitle: Option<string>
    var wasCompleted: bool
    var wasInterrupted: bool

    function Value(): Record
      reads this
    {
      Record(startTime, endTime, duration, sessionType, taskId, taskTitle, wasCompleted, wasInterrupted)
    }

    constructor (now: int, duration: int, sessionType: SessionType,
                 taskId: Option<string>, taskTitle: Option<string>)
      ensures Value() == Opened(now, duration, sessionType, taskId, taskTitle)
      ensures Value().IsOpen()
    {
      this.startTime := now;
      this.endTime := None;
      this.duration := duration;
      this.sessionType := sessionType;
      this.taskId := taskId;
      this.taskTitle := taskTitle;
      this.wasCompleted := false;
      this.wasInterrupted := false;
    }

    method Complete(now: int)
      modifies this
      ensures Value() == old(Value()).Complete(now)
      ensures wasInterrupted == old(wasInterrupted)
    {
      endTime := Some(now);
      wasCompleted := true;
    }

    method Interrupt(now: int)
      modifies this
      ensures Value() == old(Value()).Interrupt(now)
      ensures wasCompleted == old(wasCompleted)
    {
      endTime := Some(now);
      wasInterrupted := true;
    }
  }

  // --- ProductivityStats -------------------------------------------------

  /** The counters of a ProductivityStats record. */
  datatype Tally = Tally(
    completedWorkSessions: int,
    completedBreakSessions: int,
    totalFocusTime: int,
    completedTasks: int,
    streakDays: int)
  {
    /** `addSession`: only a completed session counts; a work session also
        adds its actual duration to the focus time. */
    function AddSession(r: Record): Tally {
      if !r.wasCompleted then this
      else match r.sessionType
        case Work => this.(completedWorkSessions := completedWorkSessions + 1,
                           totalFocusTime := totalFocusTime + r.ActualDuration())
        case ShortBreak => this.(completedBreakSessions := completedBreakSessions + 1)
        case LongBreak => this.(completedBreakSessions := completedBreakSessions + 1)
    }

    /** `addCompletedTask`. */
    function AddCompletedTask(): Tally {
      this.(completedTasks := completedTasks + 1)
    }
  }

  const EmptyTally: Tally := Tally(0, 0, 0, 0, 0)

  /** Adding the records one after another, as repeated `addSession` calls do. */
  function AddSessions(t: Tally, rs: seq<Record>): Tally
    decreases |rs|
  {
    if rs == [] then t else AddSessions(t.AddSession(rs[0]), rs[1..])
  }

  /** A record that was interrupted rather than completed leaves the tally
      alone; the same record completed is counted once, in the counter of its
      kind. */
  lemma AddFinalised(t: Tally, r: Record, now: int)
    requires r.IsOpen()
    ensures t.AddSession(r.Interrupt(now)) == t
    ensures r.sessionType == Work ==>
      t.AddSession(r.Complete(now)) ==
        t.(completedWorkSessions := t.completedWorkSessions + 1,
           totalFocusTime := t.totalFocusTime + (now - r.startTime))
    ensures r.sessionType != Work ==>
      t.AddSession(r.Complete(now)) ==
        t.(completedBreakSessions := t.completedBreakSessions + 1)
  {
  }

  predicate IsCompletedWork(r: Record) {
    r.wasCompleted && r.sessionType == Work
  }

  predicate IsCompletedBreak(r: Record) {
    r.wasCompleted && r.sessionType != Work
  }

  /** The sum of the actual durations. */
  function FocusTime(rs: seq<Record>): int
    decreases |rs|
  {
    if rs == [] then 0 else rs[0].ActualDuration() + FocusTime(rs[1..])
  }

  /** Folding `addSession` over records counts exactly the completed work
      sessions and their durations, and the completed breaks; the task and
      streak counters are untouched. */
  lemma {:induction false} AddSessionsCounts(t: Tally, rs: seq<Record>)
    ensures AddSessions(t, rs).completedWorkSessions == t.completedWorkSessions + |Filter(rs, IsCompletedWork)|
    ensures AddSessions(t, rs).totalFocusTime == t.totalFocusTime + FocusTime(Filter(rs, IsCompletedWork))
    ensures AddSessions(t, rs).completedBreakSessions == t.completedBreakSessions + |Filter(rs, IsCompletedBreak)|
    ensures AddSessions(t, rs).completedTasks == t.completedTasks
    ensures AddSessions(t, rs).streakDays == t.streakDays
    decreases |rs|
  {
    if rs != [] {
      AddSessionsCounts(t.AddSession(rs[0]), rs[1..]);
    }
  }

  class ProductivityStats {
    var date: int
    var completedWorkSessions: int
    var completedBreakSessions: int
    var totalFocusTime: int
    var completedTasks: int
    var streakDays: int

    function Value(): Tally
      reads this
    {
      Tally(completedWorkSessions, completedBreakSessions, totalFocusTime, completedTasks, streakDays)
    }

    /** `init(date:)`: the record of the day containing `now`, all zero. */
    constructor (now: int)
      ensures date == DayOf(now) && Value() == EmptyTally
    {
      date := DayOf(now);
      completedWorkSessions := 0;
      completedBreakSessions := 0;
      totalFocusTime := 0;
      completedTasks := 0;
      streakDays := 0;
    }

    method AddSession(session: PomodoroSession)
      modifies this
      ensures Value() == old(Value()).AddSession(session.Value())
      ensures date == old(date)
    {
      if session.wasCompleted {
        match session.sessionType {
          case Work =>
            completedWorkSessions := completedWorkSessions + 1;
            totalFocusTime := totalFocusTime + session.Value().ActualDuration();
          case ShortBreak =>
            completedBreakSessions := completedBreakSessions + 1;
          case LongBreak =>
            completedBreakSessions := completedBreakSessions + 1;
        }
      }
    }

    method AddCompletedTask()
      modifies this
      ensures Value() == old(Value()).AddCompletedTask()
      ensures completedTasks == old(completedTasks) + 1
      ensures date == old(date)
    {
      completedTasks := completedTasks + 1;
    }
  }
}
