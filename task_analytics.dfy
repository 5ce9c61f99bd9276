/**
 * The analytics panel's figures over the page's todos: totals, overdue and
 * priority counts, and the completion and due-date rates with their colours.
 */
module TaskAnalytics {
  import opened Wrappers
  import opened Seqs
  import opened TodoTypes

  datatype Stats = Stats(
    totalTasks: nat,
    completedTasks: nat,
    incompleteTasks: int,
    highPriorityTasks: nat,
    overdueTasks: nat,
    completionRate: int,
    highCount: nat,
    mediumCount: nat,
    lowCount: nat,
    dueDateTasks: nat,
    dueDateRate: int)

  /** A todo is overdue when it has a due date before `now` and is not completed. */
  predicate IsOverdueAt(t: TodoItem, now: int) {
    t.dueDate.Some? && !t.completed && t.dueDate.value < now
  }

  predicate IsHigh(t: TodoItem) { t.priority == Some(High) }

  predicate IsMedium(t: TodoItem) { t.priority == Some(Medium) }

  predicate IsLow(t: TodoItem) { t.priority == Some(Low) }

  predicate HasDueDate(t: TodoItem) { t.dueDate.Some? }

  /** `Math.round((part / whole) * 100)` when `whole > 0`, else 0; rounding is half-up. */
  function Percent(part: nat, whole: nat): int {
    if whole > 0 then (200 * part + whole) / (2 * whole) else 0
  }

  /** The percentage is the integer nearest to 100·part/whole, halves rounding up. */
  lemma PercentIsNearest(part: nat, whole: nat)
    requires whole > 0
    ensures var r := Percent(part, whole);
      2 * whole * r - whole <= 200 * part < 2 * whole * r + whole
  {
    var n, d := 200 * part + whole, 2 * whole;
    var r := n / d;
    assert n == d * r + n % d && 0 <= n % d < d;
  }

  /** Multiplying by a natural number preserves order. */
  lemma {:induction false} MulMonotone(d: nat, a: int, b: int)
    requires a <= b
    ensures d * a <= d * b
    decreases b - a
  {
    if a < b {
      MulMonotone(d, a, b - 1);
      assert d * b == d * (b - 1) + d;
    }
  }

  /** A share of a whole is a percentage between 0 and 100. */
  lemma PercentBounds(part: nat, whole: nat)
    requires part <= whole
    ensures 0 <= Percent(part, whole) <= 100
  {
    if whole > 0 {
      var n, d := 200 * part + whole, 2 * whole;
      var q := n / d;
      assert d * q + n % d == n && 0 <= n % d;
      assert q <= 100 by {
        if q > 100 {
          MulMonotone(d, 101, q);
        }
      }
    }
  }

  /** The stats `TaskAnalytics` computes, or nothing when the panel is hidden. */
  function Analytics(todos: seq<TodoItem>, showAnalytics: bool, now: int): (r: Option<Stats>)
    ensures r.None? <==> !showAnalytics
  {
    if !showAnalytics then None
    else
      var total := |todos|;
      var completed := Count(todos, IsCompleted);
      var high := Count(todos, IsHigh);
      var dated := Count(todos, HasDueDate);
      Some(Stats(
        totalTasks := total,
        completedTasks := completed,
        incompleteTasks := total - completed,
        highPriorityTasks := high,
        overdueTasks := Count(todos, (t: TodoItem) => IsOverdueAt(t, now)),
        completionRate := Percent(completed, total),
        highCount := Count(todos, IsHigh),
        mediumCount := Count(todos, IsMedium),
        lowCount := Count(todos, IsLow),
        dueDateTasks := dated,
        dueDateRate := Percent(dated, total)))
  }

  /** Completed and incomplete todos make up the total, which is the number of todos. */
  lemma CompletionSplit(todos: seq<TodoItem>, now: int)
    ensures var s := Analytics(todos, true, now).value;
      s.totalTasks == |todos| && s.completedTasks + s.incompleteTasks == s.totalTasks
      && s.completedTasks == CompletedCount(todos) && 0 <= s.incompleteTasks
      && s.incompleteTasks == Count(todos, IsIncomplete)
  {
    CountComplement(todos, IsCompleted, IsIncomplete);
  }

  /** Overdue todos are incomplete ones, so the "In Progress" figure is never negative. */
  lemma OverdueBound(todos: seq<TodoItem>, now: int)
    ensures var s := Analytics(todos, true, now).value;
      0 <= s.overdueTasks <= s.incompleteTasks && s.incompleteTasks - s.overdueTasks >= 0
  {
    CompletionSplit(todos, now);
    CountMonotone(todos, (t: TodoItem) => IsOverdueAt(t, now), IsIncomplete);
  }

  /**
   * The high-priority figure is the high share of the distribution, and the three
   * shares never exceed the total.
   */
  lemma PriorityDistribution(todos: seq<TodoItem>, now: int)
    ensures var s := Analytics(todos, true, now).value;
      s.highPriorityTasks == s.highCount && s.highCount + s.mediumCount + s.lowCount <= s.totalTasks
  {
    CountDisjoint3(todos, IsHigh, IsMedium, IsLow);
  }

  /** When every todo has a priority, the three shares make up the total. */
  lemma PriorityDistributionComplete(todos: seq<TodoItem>, now: int)
    requires forall t :: t in todos ==> t.priority.Some?
    ensures var s := Analytics(todos, true, now).value;
      s.highCount + s.mediumCount + s.lowCount == s.totalTasks
  {
    forall t | t in todos ensures IsHigh(t) || IsMedium(t) || IsLow(t) {
      assert t.priority.Some?;
      match t.priority.value
      case High => assert IsHigh(t);
      case Medium => assert IsMedium(t);
      case Low => assert IsLow(t);
    }
    CountPartition3(todos, IsHigh, IsMedium, IsLow);
  }

  /** Both rates are 0 for no todos and otherwise the rounded percentages, within 0..100. */
  lemma RatesInRange(todos: seq<TodoItem>, now: int)
    ensures var s := Analytics(todos, true, now).value;
      0 <= s.completionRate <= 100 && 0 <= s.dueDateRate <= 100
      && (todos == [] ==> s.completionRate == 0 && s.dueDateRate == 0)
      && (todos != [] ==>
            2 * s.totalTasks * s.completionRate - s.totalTasks <= 200 * s.completedTasks
                < 2 * s.totalTasks * s.completionRate + s.totalTasks
            && 2 * s.totalTasks * s.dueDateRate - s.totalTasks <= 200 * s.dueDateTasks
                < 2 * s.totalTasks * s.dueDateRate + s.totalTasks)
  {
    var s := Analytics(todos, true, now).value;
    PercentBounds(s.completedTasks, s.totalTasks);
    PercentBounds(s.dueDateTasks, s.totalTasks);
    if todos != [] {
      PercentIsNearest(s.completedTasks, s.totalTasks);
      PercentIsNearest(s.dueDateTasks, s.totalTasks);
    }
  }

  /** The completion-rate card is green above 50 % and yellow otherwise. */
  function CompletionColor(rate: int): (c: string)
    ensures c == "text-green-500" <==> rate > 50
    ensures c == "text-yellow-500" <==> rate <= 50
  {
    if rate > 50 then "text-green-500" else "text-yellow-500"
  }

  /** The overdue card is red when anything is overdue and green otherwise. */
  function OverdueColor(overdue: nat): (c: string)
    ensures c == "text-red-500" <==> overdue > 0
    ensures c == "text-green-500" <==> overdue == 0
  {
    if overdue > 0 then "text-red-500" else "text-green-500"
  }

  /** The high-priority card is red when more than 30 % of the todos are high priority. */
  function HighPriorityColor(high: nat, total: nat): (c: string)
    ensures c == "text-red-500" <==> 10 * high > 3 * total
    ensures c == "text-green-500" <==> 10 * high <= 3 * total
  {
    if 10 * high > 3 * total then "text-red-500" else "text-green-500"
  }
}
