/** The SwiftData model context, reduced to the three collections the core
    inserts into and deletes from, and the 24-hour sweep rule shared by the
    app and the timer. Saving, fetching and their failures are not modelled:
    an insert or a delete takes effect at once. */
module Store {
  import opened Common
  import opened Sessions
  import opened Tasks

  /** A `TaskCompletion` record. It is never changed after it is inserted,
      so the store keeps it as a value. */
  datatype Completion = Completion(completedAt: int, taskTitle: string, taskPriority: string, pomodorosSpent: int)

  /** The elements of `s` that do not occur in `gone`, in their order. */
  function Keep<T(==)>(s: seq<T>, gone: seq<T>): seq<T>
    decreases |s|
  {
    if s == [] then []
    else if s[0] in gone then Keep(s[1..], gone)
    else [s[0]] + Keep(s[1..], gone)
  }

  /** `Keep` keeps exactly the elements not in `gone`, and no more of them
      than there were. */
  lemma {:induction false} KeepMembers<T>(s: seq<T>, gone: seq<T>)
    ensures |Keep(s, gone)| <= |s|
    ensures forall x :: x in Keep(s, gone) <==> x in s && x !in gone
    decreases |s|
  {
    if s != [] {
      KeepMembers(s[1..], gone);
      assert forall x :: x in s <==> x == s[0] || x in s[1..];
    }
  }

  /** Removing `a` and then `b` is removing both at once. */
  lemma {:induction false} KeepKeep<T>(s: seq<T>, a: seq<T>, b: seq<T>)
    ensures Keep(Keep(s, a), b) == Keep(s, a + b)
    decreases |s|
  {
    if s != [] {
      KeepKeep(s[1..], a, b);
    }
  }

  /** Removing nothing, or only what is absent, changes nothing. */
  lemma {:induction false} KeepAbsent<T>(s: seq<T>, gone: seq<T>)
    requires forall x :: x in gone ==> x !in s
    ensures Keep(s, gone) == s
    decreases |s|
  {
    if s != [] {
      KeepAbsent(s[1..], gone);
    }
  }

  /** The 24-hour sweep's cutoff: `date(byAdding: .hour, value: -24, to: now)`. */
  function Cutoff(now: int): int {
    now - MsPerDay
  }

  /** The sweep's fetch predicate: done, stamped, and stamped before `cutoff`. */
  predicate Expired(t: TaskItem, cutoff: int)
    reads t
  {
    t.isDone && t.completedAt.Some? && t.completedAt.value < cutoff
  }

  /** The tasks the sweep fetches, in store order. */
  function ExpiredTasks(ts: seq<TaskItem>, cutoff: int): (r: seq<TaskItem>)
    reads ts
    ensures forall i :: 0 <= i < |r| ==> r[i] in ts && Expired(r[i], cutoff)
    ensures forall i :: 0 <= i < |ts| && Expired(ts[i], cutoff) ==> ts[i] in r
    decreases |ts|
  {
    if ts == [] then []
    else if Expired(ts[0], cutoff) then [ts[0]] + ExpiredTasks(ts[1..], cutoff)
    else ExpiredTasks(ts[1..], cutoff)
  }

  /** The tasks the sweep leaves, in store order. */
  function Survivors(ts: seq<TaskItem>, cutoff: int): seq<TaskItem>
    reads ts
    decreases |ts|
  {
    if ts == [] then []
    else if Expired(ts[0], cutoff) then Survivors(ts[1..], cutoff)
    else [ts[0]] + Survivors(ts[1..], cutoff)
  }

  /** Deleting every fetched task leaves exactly the survivors. */
  lemma {:induction false} KeepExpired(ts: seq<TaskItem>, gone: seq<TaskItem>, cutoff: int)
    requires forall t :: t in ts ==> (t in gone <==> Expired(t, cutoff))
    ensures Keep(ts, gone) == Survivors(ts, cutoff)
    decreases |ts|
  {
    if ts != [] {
      KeepExpired(ts[1..], gone, cutoff);
    }
  }

  /** A task survives the sweep exactly when it was in the store and is not
      done, or carries no stamp, or was completed at or after the cutoff. */
  lemma {:induction false} SurvivorsSpared(ts: seq<TaskItem>, cutoff: int, t: TaskItem)
    ensures t in Survivors(ts, cutoff) <==>
      t in ts && (!t.isDone || t.completedAt.None? || t.completedAt.value >= cutoff)
    decreases |ts|
  {
    if ts != [] {
      SurvivorsSpared(ts[1..], cutoff, t);
      assert t in ts <==> t == ts[0] || t in ts[1..];
    }
  }

  /** The index of the last completion carrying `title`, if any. */
  function LastWithTitle(cs: seq<Completion>, title: string): (r: Option<nat>)
    ensures r.Some? ==>
      r.value < |cs| && cs[r.value].taskTitle == title &&
      forall j :: r.value < j < |cs| ==> cs[j].taskTitle != title
    ensures r.None? ==> forall j :: 0 <= j < |cs| ==> cs[j].taskTitle != title
    decreases |cs|
  {
    if cs == [] then None
    else if cs[|cs| - 1].taskTitle == title then Some(|cs| - 1)
    else LastWithTitle(cs[..|cs| - 1], title)
  }

  class ModelContext {
    var sessions: seq<Record>
    var tasks: seq<TaskItem>
    var completions: seq<Completion>

    constructor ()
      ensures sessions == [] && tasks == [] && completions == []
    {
      sessions := [];
      tasks := [];
      completions := [];
    }

    method InsertSession(r: Record)
      modifies this
      ensures sessions == old(sessions) + [r]
      ensures tasks == old(tasks) && completions == old(completions)
    {
      sessions := sessions + [r];
    }

    /** Inserting an object the context already holds changes nothing. */
    method InsertTask(t: TaskItem)
      modifies this
      ensures tasks == if t in old(tasks) then old(tasks) else old(tasks) + [t]
      ensures sessions == old(sessions) && completions == old(completions)
    {
      if t !in tasks {
        tasks := tasks + [t];
      }
    }

    method DeleteTask(t: TaskItem)
      modifies this
      ensures tasks == Keep(old(tasks), [t])
      ensures t !in tasks
      ensures sessions == old(sessions) && completions == old(completions)
    {
      KeepMembers(tasks, [t]);
      tasks := Keep(tasks, [t]);
    }

    method InsertCompletion(c: Completion)
      modifies this
      ensures completions == old(completions) + [c]
      ensures sessions == old(sessions) && tasks == old(tasks)
    {
      completions := completions + [c];
    }

    method DeleteCompletion(i: nat)
      requires i < |completions|
      modifies this
      ensures completions == old(completions[..i] + completions[i + 1..])
      ensures sessions == old(sessions) && tasks == old(tasks)
    {
      completions := completions[..i] + completions[i + 1..];
    }
  }
}
