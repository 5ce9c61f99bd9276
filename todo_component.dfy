/**
 * One todo in the list: its overdue flag, its subtask progress, its priority style,
 * the defaults of its optional props, and the delayed toggle of the checkbox.
 */
module TodoComponent {
  import opened Wrappers
  import opened Seqs
  import opened TodoTypes

  /**
   * `isOverdue`: no (or an empty) due date is never overdue; otherwise the due date
   * must lie before `now` and the todo be open. `parseDate` stands for `new Date(d)`,
   * giving nothing for an invalid date, which compares false with anything.
   */
  function IsOverdue(dueDate: Option<string>, completed: bool, now: int, parseDate: string -> Option<int>): (b: bool)
    ensures dueDate.None? || dueDate.value == [] ==> !b
    ensures dueDate.Some? && dueDate.value != [] ==>
      (b <==> parseDate(dueDate.value).Some? && parseDate(dueDate.value).value < now && !completed)
  {
    if dueDate.None? || dueDate.value == [] then false
    else
      match parseDate(dueDate.value)
      case None => false
      case Some(due) => due < now && !completed
  }

  /** A completed todo is never shown as overdue, whatever its due date. */
  lemma CompletedNeverOverdue(dueDate: Option<string>, now: int, parseDate: string -> Option<int>)
    ensures !IsOverdue(dueDate, true, now, parseDate)
  {
  }

  /** Time only makes an open todo more overdue. */
  lemma OverdueStays(dueDate: Option<string>, completed: bool, now: int, later: int, parseDate: string -> Option<int>)
    requires now <= later && IsOverdue(dueDate, completed, now, parseDate)
    ensures IsOverdue(dueDate, completed, later, parseDate)
  {
  }

  predicate IsDone(s: Subtask) { s.completed }

  /** `subtasks.filter(subtask => subtask.completed).length`. */
  function CompletedSubtasks(subtasks: seq<Subtask>): (n: nat)
    ensures n <= |subtasks|
  {
    Count(subtasks, IsDone)
  }

  /** With every subtask done the progress is full. */
  lemma AllDoneIsFull(subtasks: seq<Subtask>)
    requires forall s :: s in subtasks ==> s.completed
    ensures CompletedSubtasks(subtasks) == |subtasks|
  {
    CountAll(subtasks, IsDone);
  }

  /** `subtasks.length > 0`. */
  predicate HasSubtasks(subtasks: seq<Subtask>) {
    |subtasks| > 0
  }

  /** Without subtasks there is no progress to show. */
  lemma NoSubtasksNoProgress(subtasks: seq<Subtask>)
    requires !HasSubtasks(subtasks)
    ensures CompletedSubtasks(subtasks) == 0
  {
  }

  /** `getPriorityClass`. */
  function PriorityClass(p: Priority): string {
    match p
    case High => "priority-high"
    case Medium => "priority-medium"
    case Low => "priority-low"
  }

  /** Each priority has its own style. */
  lemma PriorityClassInjective(p: Priority, q: Priority)
    ensures PriorityClass(p) == PriorityClass(q) <==> p == q
  {
  }

  /** The optional props once their defaults are applied. */
  datatype ResolvedProps = ResolvedProps(priority: Priority, tags: seq<Tag>, subtasks: seq<Subtask>)

  function WithDefaults(priority: Option<Priority>, tags: Option<seq<Tag>>, subtasks: Option<seq<Subtask>>): (r: ResolvedProps)
    ensures priority.None? ==> r.priority == Medium
    ensures priority.Some? ==> r.priority == priority.value
    ensures tags.None? ==> r.tags == []
    ensures tags.Some? ==> r.tags == tags.value
    ensures subtasks.None? ==> r.subtasks == []
    ensures subtasks.Some? ==> r.subtasks == subtasks.value
  {
    ResolvedProps(priority.GetOr(Medium), tags.GetOr([]), subtasks.GetOr([]))
  }

  /** A call of `onToggle(id, completed)`. */
  datatype ToggleCall = ToggleCall(id: int, completed: bool)

  /**
   * The checkbox of one todo. Ticking an open todo animates first and calls
   * `onToggle` from a half-second timer; unticking a completed one calls it at once.
   * The timers not yet fired are counted.
   */
  class ToggleControl {
    const id: int
    const completed: bool
    var isAnimating: bool
    var pendingTimers: nat
    /** The calls of `onToggle` made so far. */
    var calls: seq<ToggleCall>
    ghost var clicks: nat

    /** Every click has called `onToggle` once, or has a timer that will. */
    ghost predicate Valid()
      reads this
    {
      |calls| + pendingTimers == clicks
      && (forall i :: 0 <= i < |calls| ==> calls[i] == ToggleCall(id, completed))
      && (completed ==> pendingTimers == 0)
    }

    constructor (id: int, completed: bool)
      ensures Valid()
      ensures this.id == id && this.completed == completed
      ensures !isAnimating && pendingTimers == 0 && calls == [] && clicks == 0
    {
      this.id := id;
      this.completed := completed;
      isAnimating := false;
      pendingTimers := 0;
      calls := [];
      clicks := 0;
    }

    /** What the checkbox shows. */
    function Checked(): (b: bool)
      reads this
      ensures completed ==> b
    {
      completed || isAnimating
    }

    /** `handleToggle`. */
    method HandleToggle()
      requires Valid()
      modifies this`isAnimating, this`pendingTimers, this`calls, this`clicks
      ensures Valid()
      ensures clicks == old(clicks) + 1
      ensures !completed ==>
        isAnimating && pendingTimers == old(pendingTimers) + 1 && calls == old(calls)
      ensures completed ==>
        isAnimating == old(isAnimating) && pendingTimers == old(pendingTimers)
        && calls == old(calls) + [ToggleCall(id, completed)]
    {
      clicks := clicks + 1;
      if !completed {
        isAnimating := true;
        pendingTimers := pendingTimers + 1;
      } else {
        calls := calls + [ToggleCall(id, completed)];
      }
    }

    /** A pending timer fires: `onToggle(id, completed)` once, and the animation stops. */
    method FireTimer()
      requires Valid() && pendingTimers > 0
      modifies this`isAnimating, this`pendingTimers, this`calls
      ensures Valid()
      ensures !isAnimating && pendingTimers == old(pendingTimers) - 1
      ensures calls == old(calls) + [ToggleCall(id, completed)]
    {
      calls := calls + [ToggleCall(id, completed)];
      isAnimating := false;
      pendingTimers := pendingTimers - 1;
    }
  }
}
