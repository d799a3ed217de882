/** TaskItem.swift: a to-do item, its completion, and the priority scale
    with its colour and rank. */
module Tasks {
  import opened Common

  datatype TaskPriority = Low | Medium | High | Urgent {
    function RawValue(): string {
      match this
      case Low => "Low"
      case Medium => "Medium"
      case High => "High"
      case Urgent => "Urgent"
    }

    /** The colour, as a 6-digit hexadecimal RGB string. */
    function Color(): string {
      match this
      case Low => "4A90E2"
      case Medium => "F5A623"
      case High => "F07167"
      case Urgent => "D0021B"
    }

    /** The rank used to order tasks: the most pressing first. */
    function SortOrder(): int {
      match this
      case Urgent => 0
      case High => 1
      case Medium => 2
      case Low => 3
    }
  }

  predicate IsHexDigit(c: char) {
    '0' <= c <= '9' || 'A' <= c <= 'F' || 'a' <= c <= 'f'
  }

  /** The rank runs urgent 0, high 1, medium 2, low 3: it lies in 0..3 and
      tells the priorities apart, so it is a total order on them. */
  lemma SortOrderRanks(p: TaskPriority, q: TaskPriority)
    ensures 0 <= p.SortOrder() <= 3
    ensures p.SortOrder() == q.SortOrder() <==> p == q
    ensures Urgent.SortOrder() < High.SortOrder() < Medium.SortOrder() < Low.SortOrder()
  {
  }

  /** Every colour is six hexadecimal digits, and the four are distinct. */
  lemma ColorsDistinct(p: TaskPriority, q: TaskPriority)
    ensures |p.Color()| == 6 && forall i :: 0 <= i < 6 ==> IsHexDigit(p.Color()[i])
    ensures p.Color() == q.Color() <==> p == q
    ensures p.RawValue() == q.RawValue() <==> p == q
  {
  }

  class TaskItem {
    var title: string
    var isDone: bool
    var priority: TaskPriority
    var createdAt: int
    var completedAt: Option<int>
    var estimatedPomodoros: int
    var actualPomodoros: int
    var tags: seq<string>
    /** The `persistentModelID.storeIdentifier` the store gives the item. */
    const storeIdentifier: Option<string>

    /** The completion stamp is present exactly when the task is done. */
    predicate DoneStamped()
      reads this
    {
      isDone <==> completedAt.Some?
    }

    /** `init(title:isDone:priority:)` at time `now`. */
    constructor (title: string, isDone: bool, priority: TaskPriority, now: int, storeIdentifier: Option<string>)
      ensures this.title == title && this.isDone == isDone && this.priority == priority
      ensures createdAt == now && completedAt == None
      ensures estimatedPomodoros == 1 && actualPomodoros == 0 && tags == []
      ensures this.storeIdentifier == storeIdentifier
      ensures !isDone ==> DoneStamped()
    {
      this.title := title;
      this.isDone := isDone;
      this.priority := priority;
      this.createdAt := now;
      this.completedAt := None;
      this.estimatedPomodoros := 1;
      this.actualPomodoros := 0;
      this.tags := [];
      this.storeIdentifier := storeIdentifier;
    }

    /** `complete()`: done, stamped with `now`, nothing else touched. */
    method Complete(now: int)
      modifies this
      ensures isDone && completedAt == Some(now) && DoneStamped()
      ensures title == old(title) && priority == old(priority) && createdAt == old(createdAt)
      ensures estimatedPomodoros == old(estimatedPomodoros) && actualPomodoros == old(actualPomodoros)
      ensures tags == old(tags)
    {
      isDone := true;
      completedAt := Some(now);
    }
  }
}
