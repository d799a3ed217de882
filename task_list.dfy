/** ContentView.swift: how the task list is ordered, what checking,
    unchecking, deleting and adding a task do to the tasks, the stored
    completions and the timer, and the auto-delete countdown shown on a done
    task. The view's own state (the text field and the priority picker) is
    returned to the caller. */
module TaskList {
  import opened Common
  import opened Tasks
  import opened Store
  import opened TimerSpec
  import opened Timer

  // --- sortedTasks --------------------------------------------------------------

  /** The comparator of `sortedTasks`: incomplete tasks first, then the more
      pressing priority, then the newer task. */
  predicate Before(a: TaskItem, b: TaskItem)
    reads a, b
  {
    if a.isDone != b.isDone then !a.isDone && b.isDone
    else if a.priority.SortOrder() != b.priority.SortOrder() then a.priority.SortOrder() < b.priority.SortOrder()
    else a.createdAt > b.createdAt
  }

  /** No task is placed after one it should come before. */
  predicate Ordered(ts: seq<TaskItem>)
    reads set t | t in ts
  {
    forall i, j :: 0 <= i < j < |ts| ==> !Before(ts[j], ts[i])
  }

  /** The comparator is a strict order: never both ways, and "not after" is
      transitive. */
  lemma BeforeOrder(a: TaskItem, b: TaskItem, c: TaskItem)
    ensures Before(a, b) ==> !Before(b, a)
    ensures !Before(b, a) && !Before(c, b) ==> !Before(c, a)
  {
  }

  /** `t` placed after the tasks that come before it. */
  function Insert(t: TaskItem, s: seq<TaskItem>): (r: seq<TaskItem>)
    reads t, set x | x in s
    ensures multiset(r) == multiset(s) + multiset{t}
    decreases |s|
  {
    if s == [] then [t]
    else if Before(s[0], t) then
      assert s == [s[0]] + s[1..];
      [s[0]] + Insert(t, s[1..])
    else [t] + s
  }

  /** `sortedTasks`: the tasks ordered by the comparator. */
  function SortedTasks(ts: seq<TaskItem>): (r: seq<TaskItem>)
    reads set t | t in ts
    ensures multiset(r) == multiset(ts) && |r| == |ts|
    decreases |ts|
  {
    if ts == [] then []
    else
      var rest := SortedTasks(ts[1..]);
      assert ts == [ts[0]] + ts[1..];
      assert forall x | x in rest :: x in multiset(rest);
      Insert(ts[0], rest)
  }

  lemma {:induction false} InsertSpec(t: TaskItem, s: seq<TaskItem>)
    requires Ordered(s)
    ensures Ordered(Insert(t, s))
    decreases |s|
  {
    if s != [] {
      var r := Insert(t, s);
      if Before(s[0], t) {
        InsertSpec(t, s[1..]);
        assert s == [s[0]] + s[1..];
        forall i, j | 0 <= i < j < |r|
          ensures !Before(r[j], r[i])
        {
          if i == 0 {
            var y := r[j];
            assert y in multiset(Insert(t, s[1..]));
            if y == t {
              BeforeOrder(s[0], t, t);
            } else {
              assert y in s[1..];
              var k :| 0 <= k < |s[1..]| && s[1..][k] == y;
              assert s[k + 1] == y;
            }
          }
        }
      } else {
        forall i, j | 0 <= i < j < |r|
          ensures !Before(r[j], r[i])
        {
          if i == 0 {
            assert r[j] == s[j - 1];
            if j > 1 {
              BeforeOrder(t, s[0], s[j - 1]);
            }
          }
        }
      }
    }
  }

  /** `sortedTasks` puts no task after one it should come before (and, by
      its contract, drops and adds none). */
  lemma {:induction false} SortedTasksOrdered(ts: seq<TaskItem>)
    ensures Ordered(SortedTasks(ts))
    decreases |ts|
  {
    if ts != [] {
      SortedTasksOrdered(ts[1..]);
      InsertSpec(ts[0], SortedTasks(ts[1..]));
    }
  }

  /** The three keys of the order, read off an ordered list: every incomplete
      task before every completed one; within a done status, the more
      pressing priority first; within both, the newer task first. */
  lemma OrderedKeys(ts: seq<TaskItem>, i: int, j: int)
    requires Ordered(ts) && 0 <= i < j < |ts|
    ensures ts[i].isDone ==> ts[j].isDone
    ensures ts[i].isDone == ts[j].isDone ==> ts[i].priority.SortOrder() <= ts[j].priority.SortOrder()
    ensures ts[i].isDone == ts[j].isDone && ts[i].priority == ts[j].priority ==> ts[i].createdAt >= ts[j].createdAt
  {
    assert !Before(ts[j], ts[i]);
    SortOrderRanks(ts[i].priority, ts[j].priority);
  }

  // --- The check / uncheck button ------------------------------------------------

  /** The checkbox of a task row. Checking completes the task, stores a
      completion record and unbinds the timer from the task. Unchecking clears
      the done flag and the stamp, and removes the last stored completion with
      the task's title, if there is one. Either way the task stays stamped
      exactly when it is done. */
  method ToggleDone(task: TaskItem, context: ModelContext, timer: PomodoroTimer, now: int)
    modifies task, context, timer
    ensures task.DoneStamped()
    ensures task.title == old(task.title) && task.priority == old(task.priority)
    ensures task.createdAt == old(task.createdAt) && task.actualPomodoros == old(task.actualPomodoros)
    ensures task.estimatedPomodoros == old(task.estimatedPomodoros) && task.tags == old(task.tags)
    ensures context.tasks == old(context.tasks) && context.sessions == old(context.sessions)
    ensures !old(task.isDone) ==>
      task.isDone && task.completedAt == Some(now) &&
      context.completions == old(context.completions) +
        [Completion(now, old(task.title), old(task.priority).RawValue(), old(task.actualPomodoros))]
    ensures old(task.isDone) ==>
      !task.isDone &&
      context.completions ==
        match LastWithTitle(old(context.completions), old(task.title))
        case None => old(context.completions)
        case Some(i) => old(context.completions[..i] + context.completions[i + 1..])
    ensures !old(task.isDone) && old(timer.currentTask) == task ==>
      timer.currentTask == null && timer.View() == TimerSpec.SetCurrentTask(old(timer.View()), None)
    ensures old(task.isDone) || old(timer.currentTask) != task ==> unchanged(timer)
  {
    if !task.isDone {
      task.Complete(now);
      var completion := Completion(now, task.title, task.priority.RawValue(), task.actualPomodoros);
      context.InsertCompletion(completion);
      if timer.currentTask == task {
        timer.SetCurrentTask(null);
      }
    } else {
      task.isDone := false;
      task.completedAt := None;
      var last := LastWithTitle(context.completions, task.title);
      if last.Some? {
        context.DeleteCompletion(last.value);
      }
    }
  }

  // --- Swipe to delete --------------------------------------------------------------

  /** The tasks a swipe over `indexes` of `list` deletes: the incomplete ones,
      in the order of the indexes. */
  function Chosen(list: seq<TaskItem>, indexes: seq<int>): seq<TaskItem>
    requires forall k :: 0 <= k < |indexes| ==> 0 <= indexes[k] < |list|
    reads set t | t in list
    decreases |indexes|
  {
    if indexes == [] then []
    else
      var last := list[indexes[|indexes| - 1]];
      Chosen(list, indexes[..|indexes| - 1]) + (if !last.isDone then [last] else [])
  }

  /** A task is chosen exactly when it sits at one of the indexes and is not
      done. */
  lemma {:induction false} ChosenMembers(list: seq<TaskItem>, indexes: seq<int>, t: TaskItem)
    requires forall k :: 0 <= k < |indexes| ==> 0 <= indexes[k] < |list|
    ensures t in Chosen(list, indexes) <==>
      !t.isDone && exists k :: 0 <= k < |indexes| && list[indexes[k]] == t
    decreases |indexes|
  {
    if indexes != [] {
      var front := indexes[..|indexes| - 1];
      ChosenMembers(list, front, t);
      if exists k :: 0 <= k < |front| && list[front[k]] == t {
        var k :| 0 <= k < |front| && list[front[k]] == t;
        assert indexes[k] == front[k];
      }
      if exists k :: 0 <= k < |indexes| && list[indexes[k]] == t {
        var k :| 0 <= k < |indexes| && list[indexes[k]] == t;
        if k < |front| {
          assert front[k] == indexes[k];
        }
      }
    }
  }

  /** One row of `onDelete`: the timer is unbound when it is bound to the
      task, then the task is deleted from the store. */
  method Discard(task: TaskItem, context: ModelContext, timer: PomodoroTimer)
    modifies context, timer
    ensures context.tasks == Keep(old(context.tasks), [task])
    ensures context.sessions == old(context.sessions) && context.completions == old(context.completions)
    ensures old(timer.currentTask) == task ==>
      timer.currentTask == null && timer.View() == TimerSpec.SetCurrentTask(old(timer.View()), None)
    ensures old(timer.currentTask) != task ==> unchanged(timer)
  {
    if timer.currentTask == task {
      timer.SetCurrentTask(null);
    }
    context.DeleteTask(task);
  }

  /** What a swipe has done after its first rows: the tasks chosen so far
      are deleted, and the timer is unbound if its task is among them. */
  predicate Swiped(context: ModelContext, timer: PomodoroTimer, before: seq<TaskItem>,
                   chosen: seq<TaskItem>, bound: TaskItem?, start: TimerState)
    reads context, timer, timer.currentTask
  {
    && context.tasks == Keep(before, chosen)
    && (bound in chosen ==> timer.currentTask == null && timer.View() == TimerSpec.SetCurrentTask(start, None))
  }

  /** Row `n` of a swipe over `indexes` of `list`. */
  method DeleteRow(list: seq<TaskItem>, indexes: seq<int>, n: nat, context: ModelContext, timer: PomodoroTimer,
                   ghost before: seq<TaskItem>, ghost bound: TaskItem?, ghost start: TimerState,
                   ghost chosen: seq<TaskItem>)
    returns (ghost next: seq<TaskItem>)
    requires forall k :: 0 <= k < |indexes| ==> 0 <= indexes[k] < |list|
    requires n < |indexes| && chosen == Chosen(list, indexes[..n])
    requires Swiped(context, timer, before, chosen, bound, start)
    requires bound !in chosen ==> timer.currentTask == bound && timer.View() == start
    modifies context, timer
    ensures next == Chosen(list, indexes[..n + 1])
    ensures Swiped(context, timer, before, next, bound, start)
    ensures bound !in next ==> bound !in chosen && unchanged(timer)
    ensures context.sessions == old(context.sessions) && context.completions == old(context.completions)
  {
    var task := list[indexes[n]];
    assert indexes[..n + 1][..n] == indexes[..n];
    next := Chosen(list, indexes[..n + 1]);
    if !task.isDone {
      Discard(task, context, timer);
      KeepKeep(before, chosen, [task]);
    } else {
      assert chosen + [] == chosen;
    }
  }

  /** `onDelete` over the rows at `indexes` of the list as shown: each
      incomplete task there is deleted from the store, after unbinding the
      timer from it; completed tasks are left for the 24-hour sweep. */
  method DeleteRows(indexes: seq<int>, context: ModelContext, timer: PomodoroTimer)
    requires forall k :: 0 <= k < |indexes| ==> 0 <= indexes[k] < |context.tasks|
    modifies context, timer
    ensures context.tasks == Keep(old(context.tasks), old(Chosen(SortedTasks(context.tasks), indexes)))
    ensures context.sessions == old(context.sessions) && context.completions == old(context.completions)
    ensures old(timer.currentTask) in old(Chosen(SortedTasks(context.tasks), indexes)) ==>
      timer.currentTask == null && timer.View() == TimerSpec.SetCurrentTask(old(timer.View()), None)
    ensures old(timer.currentTask) !in old(Chosen(SortedTasks(context.tasks), indexes)) ==> unchanged(timer)
  {
    var sortedTasks := SortedTasks(context.tasks);
    ghost var before := context.tasks;
    ghost var bound := timer.currentTask;
    ghost var start := timer.View();
    ghost var all := Chosen(sortedTasks, indexes);
    ghost var chosen: seq<TaskItem> := [];
    KeepAbsent(before, []);
    for n := 0 to |indexes|
      invariant chosen == Chosen(sortedTasks, indexes[..n])
      invariant Swiped(context, timer, before, chosen, bound, start)
      invariant bound !in chosen ==> unchanged(timer)
      invariant context.sessions == old(context.sessions) && context.completions == old(context.completions)
    {
      chosen := DeleteRow(sortedTasks, indexes, n, context, timer, before, bound, start, chosen);
    }
    assert indexes[..|indexes|] == indexes;
    assert Chosen(sortedTasks, indexes) == all;
  }

  /** Swiping never deletes a completed task, and deletes every incomplete
      task at a swiped row. */
  lemma DeleteRowsSpares(list: seq<TaskItem>, tasks: seq<TaskItem>, indexes: seq<int>, t: TaskItem)
    requires forall k :: 0 <= k < |indexes| ==> 0 <= indexes[k] < |list|
    ensures t in Keep(tasks, Chosen(list, indexes)) <==>
      t in tasks && (t.isDone || forall k :: 0 <= k < |indexes| ==> list[indexes[k]] != t)
  {
    KeepMembers(tasks, Chosen(list, indexes));
    ChosenMembers(list, indexes, t);
  }

  // --- Adding a task -----------------------------------------------------------------

  /** Foundation's `CharacterSet.whitespaces`: the space separators of
      Unicode category Zs and the tab; line breaks are not included. */
  predicate IsWhitespace(c: char) {
    c == '\t' || c == ' ' || c == ' ' || c == ' ' ||
    (' ' <= c <= ' ') || c == ' ' || c == ' ' || c == '　'
  }

  /** The Add button. A title of nothing but spaces and tabs adds nothing
      and leaves the field as it is. Any other title, untrimmed, becomes a new
      incomplete task of the chosen priority created at `now`; the field is
      cleared and the picker goes back to medium. */
  method AddTask(context: ModelContext, newTask: string, selectedPriority: TaskPriority, now: int, id: Option<string>)
    returns (added: TaskItem?, field: string, picker: TaskPriority)
    modifies context
    ensures context.sessions == old(context.sessions) && context.completions == old(context.completions)
    ensures (forall i :: 0 <= i < |newTask| ==> IsWhitespace(newTask[i])) ==>
      added == null && context.tasks == old(context.tasks) && field == newTask && picker == selectedPriority
    ensures !(forall i :: 0 <= i < |newTask| ==> IsWhitespace(newTask[i])) ==>
      added != null && fresh(added) && context.tasks == old(context.tasks) + [added] &&
      added.title == newTask && !added.isDone && added.priority == selectedPriority &&
      added.createdAt == now && added.completedAt.None? && added.actualPomodoros == 0 &&
      added.estimatedPomodoros == 1 && added.tags == [] &&
      field == "" && picker == Medium
  {
    TrimEmptyIff(newTask, IsWhitespace);
    if Trim(newTask, IsWhitespace) == [] {
      return null, newTask, selectedPriority;
    }
    var task := new TaskItem(newTask, false, selectedPriority, now, id);
    context.InsertTask(task);
    return task, "", Medium;
  }

  // --- timeUntilAutoDelete ------------------------------------------------------------

  /** `timeUntilAutoDelete(completedAt:)`: the whole hours and leftover whole
      minutes until 24 hours after the completion, (0, 0) once that moment
      has passed. */
  function TimeUntilAutoDelete(completedAt: int, now: int): (hm: (int, int)) {
    var deleteAt := completedAt + 24 * MsPerHour;
    var timeInterval := deleteAt - now;
    if timeInterval <= 0 then (0, 0)
    else
      var secs := WholeSeconds(timeInterval);
      (secs / 3600, (secs % 3600) / 60)
  }

  /** The countdown is (0, 0) once the day has passed; before, the minutes
      lie in 0..59 and hours and minutes together are the whole minutes
      left, rounded down; from the completion on, at most 24 hours are
      shown. */
  lemma AutoDeleteCountdown(completedAt: int, now: int)
    ensures now >= completedAt + MsPerDay ==> TimeUntilAutoDelete(completedAt, now) == (0, 0)
    ensures var (h, m) := TimeUntilAutoDelete(completedAt, now);
      && h >= 0 && 0 <= m < 60
      && (now < completedAt + MsPerDay ==>
            (h * 60 + m) * MsPerMinute <= completedAt + MsPerDay - now < (h * 60 + m + 1) * MsPerMinute)
      && (now >= completedAt ==> h < 24 || (h == 24 && m == 0))
  {
    var left := completedAt + MsPerDay - now;
    if left > 0 {
      var secs := left / 1000;
      assert WholeSeconds(left) == secs;
      var h, m := secs / 3600, (secs % 3600) / 60;
      assert secs == h * 3600 + (secs % 3600);
      assert secs % 3600 == m * 60 + (secs % 3600) % 60;
      assert left == secs * 1000 + left % 1000;
    }
  }

  /** The countdown agrees with the sweep: a task the sweep at `now` would
      delete shows (0, 0), and a task showing time left survives it. */
  lemma AutoDeleteMatchesSweep(t: TaskItem, now: int)
    requires t.isDone && t.completedAt.Some?
    ensures Expired(t, Cutoff(now)) ==> TimeUntilAutoDelete(t.completedAt.value, now) == (0, 0)
    ensures TimeUntilAutoDelete(t.completedAt.value, now) != (0, 0) ==> !Expired(t, Cutoff(now))
  {
    AutoDeleteCountdown(t.completedAt.value, now);
  }
}
