/**
 * The todo page's list logic: the search, status and priority filters, the
 * ordering comparator with its in-place sort, and the list and subtask updates
 * whose results replace the page's `todos`.
 */
module TodoList {
  import opened Wrappers
  import opened Text
  import opened Seqs
  import opened TodoTypes

  // ---------------------------------------------------------------- lookup

  /** `k` is the first position of `todos` whose id is `id`. */
  predicate IsFirstWithId(todos: seq<TodoItem>, id: int, k: int) {
    0 <= k < |todos| && todos[k].id == id && forall j :: 0 <= j < k ==> todos[j].id != id
  }

  predicate HasId(todos: seq<TodoItem>, id: int) {
    exists k :: 0 <= k < |todos| && todos[k].id == id
  }

  /** No two todos share an id (ids come from the database). */
  predicate UniqueIds(todos: seq<TodoItem>) {
    forall i, j :: 0 <= i < |todos| && 0 <= j < |todos| && todos[i].id == todos[j].id ==> i == j
  }

  /** `todos.find(todo => todo.id === id)`. */
  function FindById(todos: seq<TodoItem>, id: int): (r: Option<TodoItem>)
    ensures r.None? <==> !HasId(todos, id)
    ensures r.Some? ==> exists k :: IsFirstWithId(todos, id, k) && todos[k] == r.value
  {
    if todos == [] then None
    else if todos[0].id == id then
      assert IsFirstWithId(todos, id, 0);
      Some(todos[0])
    else
      var r := FindById(todos[1..], id);
      assert HasId(todos, id) <==> HasId(todos[1..], id) by {
        if HasId(todos, id) {
          var k :| 0 <= k < |todos| && todos[k].id == id;
          assert todos[1..][k - 1].id == id;
        }
      }
      if r.Some? then
        var k :| IsFirstWithId(todos[1..], id, k) && todos[1..][k] == r.value;
        assert IsFirstWithId(todos, id, k + 1);
        r
      else r
  }

  /** Among todos with unique ids, `find` returns the one todo carrying the id. */
  lemma FindUnique(todos: seq<TodoItem>, k: int)
    requires UniqueIds(todos) && 0 <= k < |todos|
    ensures FindById(todos, todos[k].id) == Some(todos[k])
  {
    var id := todos[k].id;
    assert HasId(todos, id);
    var k' :| IsFirstWithId(todos, id, k') && todos[k'] == FindById(todos, id).value;
  }

  // ---------------------------------------------------------------- list updates

  /** `[todo, ...todos]`: what `addTodo` stores. */
  function Prepend(todos: seq<TodoItem>, todo: TodoItem): (r: seq<TodoItem>)
    ensures |r| == |todos| + 1 && r[0] == todo && r[1..] == todos
  {
    [todo] + todos
  }

  /** The prepended todo is the one `find` sees for its id. */
  lemma PrependFind(todos: seq<TodoItem>, todo: TodoItem)
    ensures FindById(Prepend(todos, todo), todo.id) == Some(todo)
  {
  }

  /** `todos.map(t => t.id === id ? todo : t)`. */
  function ReplaceById(todos: seq<TodoItem>, id: int, todo: TodoItem): (r: seq<TodoItem>)
    ensures |r| == |todos|
    ensures forall i :: 0 <= i < |todos| ==> r[i] == if todos[i].id == id then todo else todos[i]
  {
    seq(|todos|, i requires 0 <= i < |todos| => if todos[i].id == id then todo else todos[i])
  }

  /**
   * After replacing the todo with id `id` by a todo that keeps the id, `find` on
   * that id returns the replacement, and `find` on any other id is unaffected.
   */
  lemma {:induction false} ReplaceThenFind(todos: seq<TodoItem>, id: int, todo: TodoItem, other: int)
    requires todo.id == id
    ensures FindById(ReplaceById(todos, id, todo), id) == if HasId(todos, id) then Some(todo) else None
    ensures other != id ==> FindById(ReplaceById(todos, id, todo), other) == FindById(todos, other)
  {
    var r := ReplaceById(todos, id, todo);
    if todos != [] {
      assert r[1..] == ReplaceById(todos[1..], id, todo);
      ReplaceThenFind(todos[1..], id, todo, other);
      assert HasId(todos, id) <==> todos[0].id == id || HasId(todos[1..], id) by {
        if HasId(todos, id) && todos[0].id != id {
          var k :| 0 <= k < |todos| && todos[k].id == id;
          assert todos[1..][k - 1].id == id;
        }
      }
    }
  }

  /** `todos.filter(t => t.id !== id)`: what `deleteTodo` stores. */
  function RemoveById(todos: seq<TodoItem>, id: int): (r: seq<TodoItem>)
    ensures forall i :: 0 <= i < |r| ==> r[i].id != id
    ensures forall t :: multiset(r)[t] == if t.id != id then multiset(todos)[t] else 0
  {
    var keep := (t: TodoItem) => t.id != id;
    FilterMultiset(todos, keep);
    Filter(todos, keep)
  }

  /**
   * Deleting keeps the order of the remaining todos: it removes in place from each
   * part of a split list, and a list without the id comes back unchanged.
   */
  lemma RemoveByIdKeepsOrder(a: seq<TodoItem>, b: seq<TodoItem>, id: int)
    ensures RemoveById(a + b, id) == RemoveById(a, id) + RemoveById(b, id)
    ensures !HasId(a, id) ==> RemoveById(a, id) == a
  {
    FilterAppend(a, b, (t: TodoItem) => t.id != id);
    if !HasId(a, id) {
      FilterKeepsAll(a, (t: TodoItem) => t.id != id);
    }
  }

  /** Deleting removes exactly the todos carrying the id and no others. */
  lemma RemoveCount(todos: seq<TodoItem>, id: int)
    ensures FindById(RemoveById(todos, id), id).None?
    ensures |RemoveById(todos, id)| == |todos| - Count(todos, (t: TodoItem) => t.id == id)
  {
    CountComplement(todos, (t: TodoItem) => t.id != id, (t: TodoItem) => t.id == id);
  }

  // ---------------------------------------------------------------- subtasks

  /** The subtask list with `completed` flipped on the subtasks whose id is `sid`. */
  function ToggleSubtaskIn(subtasks: seq<Subtask>, sid: string): (r: seq<Subtask>)
    ensures |r| == |subtasks|
    ensures forall i :: 0 <= i < |r| ==> r[i].id == subtasks[i].id && r[i].title == subtasks[i].title
    ensures forall i :: 0 <= i < |r| ==>
      r[i].completed == if subtasks[i].id == sid then !subtasks[i].completed else subtasks[i].completed
  {
    seq(|subtasks|, i requires 0 <= i < |subtasks| =>
      var s := subtasks[i];
      if s.id == sid then s.(completed := !s.completed) else s)
  }

  /** Toggling the same subtask twice restores the list. */
  lemma ToggleSubtaskInvolution(subtasks: seq<Subtask>, sid: string)
    ensures ToggleSubtaskIn(ToggleSubtaskIn(subtasks, sid), sid) == subtasks
  {
  }

  /** The subtask list without the subtasks whose id is `sid`. */
  function DeleteSubtaskIn(subtasks: seq<Subtask>, sid: string): (r: seq<Subtask>)
    ensures forall i :: 0 <= i < |r| ==> r[i].id != sid
    ensures forall s :: multiset(r)[s] == if s.id != sid then multiset(subtasks)[s] else 0
  {
    var keep := (s: Subtask) => s.id != sid;
    FilterMultiset(subtasks, keep);
    Filter(subtasks, keep)
  }

  /**
   * Deleting a subtask keeps the order of the others, leaves a list without that id
   * unchanged, and deleting it again changes nothing.
   */
  lemma DeleteSubtaskInKeepsOrder(a: seq<Subtask>, b: seq<Subtask>, sid: string)
    ensures DeleteSubtaskIn(a + b, sid) == DeleteSubtaskIn(a, sid) + DeleteSubtaskIn(b, sid)
    ensures (forall i :: 0 <= i < |a| ==> a[i].id != sid) ==> DeleteSubtaskIn(a, sid) == a
    ensures DeleteSubtaskIn(DeleteSubtaskIn(a, sid), sid) == DeleteSubtaskIn(a, sid)
  {
    FilterAppend(a, b, (s: Subtask) => s.id != sid);
    if forall i :: 0 <= i < |a| ==> a[i].id != sid {
      FilterKeepsAll(a, (s: Subtask) => s.id != sid);
    }
    FilterKeepsAll(DeleteSubtaskIn(a, sid), (s: Subtask) => s.id != sid);
  }

  /** A new subtask as `handleAddSubtask` builds it: never completed. */
  function NewSubtask(id: string, title: string): (s: Subtask)
    ensures s.id == id && s.title == title && !s.completed
  {
    Subtask(id, title, false)
  }

  /** `todos.map(t => t.id === todoId ? {...t, subtasks} : t)`. */
  function SetSubtasks(todos: seq<TodoItem>, todoId: int, subtasks: seq<Subtask>): (r: seq<TodoItem>)
    ensures |r| == |todos|
    ensures forall i :: 0 <= i < |todos| ==>
      r[i] == if todos[i].id == todoId then todos[i].(subtasks := Some(subtasks)) else todos[i]
  {
    seq(|todos|, i requires 0 <= i < |todos| =>
      if todos[i].id == todoId then todos[i].(subtasks := Some(subtasks)) else todos[i])
  }

  /** Only the `subtasks` field of todos carrying `todoId` may differ between `todos` and `r`. */
  predicate OnlySubtasksOf(todos: seq<TodoItem>, r: seq<TodoItem>, todoId: int) {
    |r| == |todos| &&
    forall i :: 0 <= i < |todos| ==>
      r[i] == (if todos[i].id == todoId then todos[i].(subtasks := r[i].subtasks) else todos[i])
  }

  /**
   * `handleToggleSubtask`: every todo carrying `todoId` gets the subtasks of the first
   * such todo with that subtask toggled; a no-op for an unknown todo or when the
   * first one has no subtask list.
   */
  function ToggleSubtask(todos: seq<TodoItem>, todoId: int, sid: string): (r: seq<TodoItem>)
    ensures OnlySubtasksOf(todos, r, todoId)
    ensures !HasId(todos, todoId) ==> r == todos
    ensures FindById(todos, todoId).Some? && FindById(todos, todoId).value.subtasks.None? ==> r == todos
    ensures FindById(todos, todoId).Some? && FindById(todos, todoId).value.subtasks.Some? ==>
      forall i :: 0 <= i < |todos| && todos[i].id == todoId ==>
        r[i].subtasks == Some(ToggleSubtaskIn(FindById(todos, todoId).value.subtasks.value, sid))
  {
    match FindById(todos, todoId)
    case None => todos
    case Some(t) =>
      if t.subtasks.None? then todos
      else SetSubtasks(todos, todoId, ToggleSubtaskIn(t.subtasks.value, sid))
  }

  /**
   * `handleDeleteSubtask`: every todo carrying `todoId` gets the subtasks of the first
   * such todo without that subtask; a no-op for an unknown todo or when the first one
   * has no subtask list.
   */
  function DeleteSubtask(todos: seq<TodoItem>, todoId: int, sid: string): (r: seq<TodoItem>)
    ensures OnlySubtasksOf(todos, r, todoId)
    ensures !HasId(todos, todoId) ==> r == todos
    ensures FindById(todos, todoId).Some? && FindById(todos, todoId).value.subtasks.None? ==> r == todos
    ensures FindById(todos, todoId).Some? && FindById(todos, todoId).value.subtasks.Some? ==>
      forall i :: 0 <= i < |todos| && todos[i].id == todoId ==>
        r[i].subtasks == Some(DeleteSubtaskIn(FindById(todos, todoId).value.subtasks.value, sid))
  {
    match FindById(todos, todoId)
    case None => todos
    case Some(t) =>
      if t.subtasks.None? then todos
      else SetSubtasks(todos, todoId, DeleteSubtaskIn(t.subtasks.value, sid))
  }

  /** `handleAddSubtask`: appends an incomplete subtask; a no-op for an unknown todo. */
  function AddSubtask(todos: seq<TodoItem>, todoId: int, newId: string, title: string): (r: seq<TodoItem>)
    ensures OnlySubtasksOf(todos, r, todoId)
    ensures !HasId(todos, todoId) ==> r == todos
  {
    match FindById(todos, todoId)
    case None => todos
    case Some(t) => SetSubtasks(todos, todoId, t.subtasks.GetOr([]) + [NewSubtask(newId, title)])
  }

  /** After adding, the todo's subtask list is its old one followed by the new, incomplete subtask. */
  lemma AddSubtaskAppends(todos: seq<TodoItem>, k: int, newId: string, title: string)
    requires UniqueIds(todos) && 0 <= k < |todos|
    ensures AddSubtask(todos, todos[k].id, newId, title)[k].subtasks
         == Some(todos[k].subtasks.GetOr([]) + [Subtask(newId, title, false)])
  {
    FindUnique(todos, k);
  }

  /** With unique ids, replacing the subtasks of the todo at `k` changes that todo alone. */
  lemma SetSubtasksAt(todos: seq<TodoItem>, k: int, subtasks: seq<Subtask>)
    requires UniqueIds(todos) && 0 <= k < |todos|
    ensures SetSubtasks(todos, todos[k].id, subtasks) == todos[k := todos[k].(subtasks := Some(subtasks))]
  {
    forall i | 0 <= i < |todos| && todos[i].id == todos[k].id ensures i == k {
    }
  }

  /** Replacing a todo's subtasks keeps the ids unique. */
  lemma SetSubtasksUnique(todos: seq<TodoItem>, k: int, subtasks: seq<Subtask>)
    requires UniqueIds(todos) && 0 <= k < |todos|
    ensures UniqueIds(todos[k := todos[k].(subtasks := Some(subtasks))])
  {
    var r := todos[k := todos[k].(subtasks := Some(subtasks))];
    forall i, j | 0 <= i < |r| && 0 <= j < |r| && r[i].id == r[j].id ensures i == j {
      assert todos[i].id == r[i].id && todos[j].id == r[j].id;
    }
  }

  /** With unique ids, toggling a subtask changes the one todo carrying the id and nothing else. */
  lemma ToggleSubtaskAt(todos: seq<TodoItem>, k: int, sid: string)
    requires UniqueIds(todos) && 0 <= k < |todos| && todos[k].subtasks.Some?
    ensures ToggleSubtask(todos, todos[k].id, sid)
         == todos[k := todos[k].(subtasks := Some(ToggleSubtaskIn(todos[k].subtasks.value, sid)))]
  {
    FindUnique(todos, k);
    SetSubtasksAt(todos, k, ToggleSubtaskIn(todos[k].subtasks.value, sid));
  }

  /** With unique ids, toggling a subtask twice restores the whole todo list. */
  lemma ToggleSubtaskTwice(todos: seq<TodoItem>, todoId: int, sid: string)
    requires UniqueIds(todos)
    ensures ToggleSubtask(ToggleSubtask(todos, todoId, sid), todoId, sid) == todos
  {
    if HasId(todos, todoId) {
      var k :| 0 <= k < |todos| && todos[k].id == todoId;
      FindUnique(todos, k);
      if todos[k].subtasks.Some? {
        var t := ToggleSubtaskIn(todos[k].subtasks.value, sid);
        ToggleSubtaskAt(todos, k, sid);
        SetSubtasksUnique(todos, k, t);
        var r := todos[k := todos[k].(subtasks := Some(t))];
        ToggleSubtaskAt(r, k, sid);
        ToggleSubtaskInvolution(todos[k].subtasks.value, sid);
        assert r[k := r[k].(subtasks := Some(ToggleSubtaskIn(t, sid)))] == todos;
      }
    }
  }

  /** With unique ids, deleting a subtask changes the one todo carrying the id and nothing else. */
  lemma DeleteSubtaskAt(todos: seq<TodoItem>, k: int, sid: string)
    requires UniqueIds(todos) && 0 <= k < |todos| && todos[k].subtasks.Some?
    ensures DeleteSubtask(todos, todos[k].id, sid)
         == todos[k := todos[k].(subtasks := Some(DeleteSubtaskIn(todos[k].subtasks.value, sid)))]
  {
    FindUnique(todos, k);
    SetSubtasksAt(todos, k, DeleteSubtaskIn(todos[k].subtasks.value, sid));
  }

  /** With unique ids, deleting the same subtask twice equals deleting it once. */
  lemma DeleteSubtaskTwice(todos: seq<TodoItem>, todoId: int, sid: string)
    requires UniqueIds(todos)
    ensures DeleteSubtask(DeleteSubtask(todos, todoId, sid), todoId, sid) == DeleteSubtask(todos, todoId, sid)
  {
    if HasId(todos, todoId) {
      var k :| 0 <= k < |todos| && todos[k].id == todoId;
      FindUnique(todos, k);
      if todos[k].subtasks.Some? {
        var d := DeleteSubtaskIn(todos[k].subtasks.value, sid);
        DeleteSubtaskAt(todos, k, sid);
        SetSubtasksUnique(todos, k, d);
        var r := todos[k := todos[k].(subtasks := Some(d))];
        DeleteSubtaskAt(r, k, sid);
        DeleteSubtaskInKeepsOrder(todos[k].subtasks.value, [], sid);
        assert r[k := r[k].(subtasks := Some(DeleteSubtaskIn(d, sid)))] == r;
      }
    }
  }

  // ---------------------------------------------------------------- filters

  /**
   * The search test of `applyFilters`, for a query already lower-cased: the
   * lower-cased title contains it, or the description is present, non-empty and
   * contains it when lower-cased.
   */
  predicate MatchesSearch(t: TodoItem, query: string) {
    Contains(Lower(t.title), query)
    || (t.description.Some? && t.description.value != [] && Contains(Lower(t.description.value), query))
  }

  /** The status filter as the toolbar selects it. */
  predicate MatchesStatus(t: TodoItem, status: StatusFilter) {
    match status
    case AllStatuses => true
    case CompletedOnly => t.completed
    case Active => !t.completed
  }

  /** The priority filter: an exact match on the todo's own priority; a missing one never matches. */
  predicate MatchesPriority(t: TodoItem, priority: PriorityFilter) {
    match priority
    case AllPriorities => true
    case Only(p) => t.priority == Some(p)
  }

  /** The todos the page displays for a search query and filter settings. */
  predicate Keeps(t: TodoItem, searchQuery: string, filters: Filters) {
    PassesSearch(t, searchQuery)
    && MatchesStatus(t, filters.status)
    && MatchesPriority(t, filters.priority)
  }

  /**
   * With the filters at 'all', an empty query keeps every todo; a non-empty query
   * keeps a todo iff the lower-cased query occurs in its lower-cased title or in its
   * non-empty lower-cased description.
   */
  lemma KeepsSearch(t: TodoItem, searchQuery: string)
    ensures searchQuery == [] ==> Keeps(t, searchQuery, InitialFilters)
    ensures searchQuery != [] ==>
      (Keeps(t, searchQuery, InitialFilters) <==>
        (exists i :: OccursAt(Lower(searchQuery), Lower(t.title), i))
        || (t.description.Some? && t.description.value != [] &&
            exists i :: OccursAt(Lower(searchQuery), Lower(t.description.value), i)))
  {
  }

  /** 'completed' keeps exactly the completed todos, 'active' exactly the others, 'all' everything. */
  lemma KeepsStatus(t: TodoItem, filters: Filters)
    requires filters.priority == AllPriorities
    ensures filters.status == CompletedOnly ==> (Keeps(t, [], filters) <==> t.completed)
    ensures filters.status == Active ==> (Keeps(t, [], filters) <==> !t.completed)
    ensures filters.status == AllStatuses ==> Keeps(t, [], filters)
  {
  }

  /**
   * A priority filter keeps only todos with exactly that priority: a todo without
   * one is dropped by the 'medium' filter although the ordering ranks it as medium.
   */
  lemma KeepsPriority(t: TodoItem, q: string, filters: Filters)
    requires filters.priority.Only?
    ensures Keeps(t, q, filters) ==> t.priority == Some(filters.priority.priority)
    ensures t.priority.None? ==> !Keeps(t, q, filters) && EffectivePriority(t) == Medium
  {
  }

  // ---------------------------------------------------------------- ordering

  /** `a.priority || 'medium'`. */
  function EffectivePriority(t: TodoItem): Priority {
    t.priority.GetOr(Medium)
  }

  /** `priorityOrder`: high 0, medium 1, low 2. */
  function Rank(p: Priority): int {
    match p
    case High => 0
    case Medium => 1
    case Low => 2
  }

  /**
   * `a` and `b` agree on everything the comparator looks at: completion, priority
   * (a missing one read as medium), due date and, between undated todos, creation time.
   */
  predicate SameSortKey(a: TodoItem, b: TodoItem) {
    a.completed == b.completed && EffectivePriority(a) == EffectivePriority(b)
    && a.dueDate == b.dueDate && (a.dueDate.None? ==> a.createdAt == b.createdAt)
  }

  /** The comparator passed to `result.sort`: negative puts `a` first, positive puts `b` first. */
  function Compare(a: TodoItem, b: TodoItem): int {
    if a.completed != b.completed then (if a.completed then 1 else -1)
    else if EffectivePriority(a) != EffectivePriority(b) then
      Rank(EffectivePriority(a)) - Rank(EffectivePriority(b))
    else if a.dueDate.Some? && b.dueDate.Some? then a.dueDate.value - b.dueDate.value
    else if a.dueDate.Some? && b.dueDate.None? then -1
    else if a.dueDate.None? && b.dueDate.Some? then 1
    else b.createdAt - a.createdAt
  }

  /** The comparator returns zero exactly for todos with the same sort key. */
  lemma CompareZeroIffSameKey(a: TodoItem, b: TodoItem)
    ensures Compare(a, b) == 0 <==> SameSortKey(a, b)
  {
  }

  /** `a` may precede `b` in a sorted list. */
  predicate Le(a: TodoItem, b: TodoItem) {
    Compare(a, b) <= 0
  }

  predicate Sorted(s: seq<TodoItem>) {
    forall i, j :: 0 <= i < j < |s| ==> Le(s[i], s[j])
  }

  /** The comparator is antisymmetric: swapping its arguments negates it. */
  lemma CompareAntisymmetric(a: TodoItem, b: TodoItem)
    ensures Compare(a, b) == -Compare(b, a)
  {
  }

  /** The comparator is transitive, so it is a total preorder that sorting can respect. */
  lemma CompareTransitive(a: TodoItem, b: TodoItem, c: TodoItem)
    requires Le(a, b) && Le(b, c)
    ensures Le(a, c)
  {
  }

  /** In a sorted list every incomplete todo precedes every completed one. */
  lemma SortedIncompleteFirst(s: seq<TodoItem>, i: int, j: int)
    requires Sorted(s) && 0 <= i < j < |s|
    ensures s[i].completed ==> s[j].completed
  {
    assert Le(s[i], s[j]);
  }

  /** Within equal completion, high precedes medium precedes low, a missing priority counting as medium. */
  lemma SortedByPriority(s: seq<TodoItem>, i: int, j: int)
    requires Sorted(s) && 0 <= i < j < |s| && s[i].completed == s[j].completed
    ensures Rank(EffectivePriority(s[i])) <= Rank(EffectivePriority(s[j]))
  {
    assert Le(s[i], s[j]);
  }

  /**
   * The tie-breaks within equal completion and priority: earlier due date first,
   * a dated todo before an undated one, and among undated todos the newest first.
   */
  lemma SortedTieBreaks(s: seq<TodoItem>, i: int, j: int)
    requires Sorted(s) && 0 <= i < j < |s|
    requires s[i].completed == s[j].completed && EffectivePriority(s[i]) == EffectivePriority(s[j])
    ensures s[i].dueDate.Some? && s[j].dueDate.Some? ==> s[i].dueDate.value <= s[j].dueDate.value
    ensures s[j].dueDate.Some? ==> s[i].dueDate.Some?
    ensures s[i].dueDate.None? && s[j].dueDate.None? ==> s[i].createdAt >= s[j].createdAt
  {
    assert Le(s[i], s[j]);
  }

  /** The test "same sort key as `t`", as a filter predicate. */
  function TiedWith(t: TodoItem): TodoItem -> bool {
    (x: TodoItem) => SameSortKey(x, t)
  }

  /** The todos of `s` that the comparator ranks equal to `t`, in their order in `s`. */
  function TiesOf(s: seq<TodoItem>, t: TodoItem): seq<TodoItem> {
    Filter(s, TiedWith(t))
  }

  /**
   * `r` keeps `s`'s order among todos the comparator ranks equal, as the stable
   * `Array.prototype.sort` does.
   */
  ghost predicate StableFrom(r: seq<TodoItem>, s: seq<TodoItem>) {
    forall t :: TiesOf(r, t) == TiesOf(s, t)
  }

  /** Swapping two neighbours with different sort keys leaves every group of ties in order. */
  lemma SwapKeepsTies(s: seq<TodoItem>, j: int, t: TodoItem)
    requires 0 < j < |s| && !SameSortKey(s[j - 1], s[j])
    ensures TiesOf(s[j - 1 := s[j]][j := s[j - 1]], t) == TiesOf(s, t)
  {
    var front, back := s[..j - 1], s[j + 1..];
    assert s == front + [s[j - 1], s[j]] + back;
    assert s[j - 1 := s[j]][j := s[j - 1]] == front + [s[j], s[j - 1]] + back;
    FilterSwap(front, s[j - 1], s[j], back, TiedWith(t));
  }

  /** A swap of two neighbours with different sort keys is stable. */
  lemma SwapStable(before: seq<TodoItem>, after: seq<TodoItem>, j: int)
    requires 0 < j < |before| && !SameSortKey(before[j - 1], before[j])
    requires after == before[j - 1 := before[j]][j := before[j - 1]]
    ensures StableFrom(after, before)
  {
    forall t ensures TiesOf(after, t) == TiesOf(before, t) {
      SwapKeepsTies(before, j, t);
    }
  }

  /** The ties of a list: its head's, when the head ties, then the tail's. */
  lemma TiesOfCons(r: seq<TodoItem>, t: TodoItem)
    requires r != []
    ensures TiesOf(r, t) == (if SameSortKey(r[0], t) then [r[0]] else []) + TiesOf(r[1..], t)
  {
    assert r == [r[0]] + r[1..];
    FilterAppend([r[0]], r[1..], TiedWith(t));
  }

  /** The head of a non-empty list is the first of its own ties. */
  lemma HeadOfOwnTies(r: seq<TodoItem>)
    requires r != []
    ensures TiesOf(r, r[0]) != [] && TiesOf(r, r[0])[0] == r[0]
  {
    TiesOfCons(r, r[0]);
  }

  /** Every tie of `t` in `r` comes from `r`. */
  lemma TiesComeFrom(r: seq<TodoItem>, t: TodoItem, x: TodoItem)
    requires x in TiesOf(r, t)
    ensures x in r
  {
    FilterMultiset(r, TiedWith(t));
    assert multiset(TiesOf(r, t))[x] > 0;
  }

  /** The head of a sorted list is no greater than any of its todos. */
  lemma SortedHeadLeast(r: seq<TodoItem>, x: TodoItem)
    requires Sorted(r) && x in r
    ensures Le(r[0], x)
  {
    var i :| 0 <= i < |r| && r[i] == x;
    if i > 0 { assert Le(r[0], r[i]); }
  }

  /** Two sorted lists with the same ties open with the same todo. */
  lemma SortedStableHeads(r1: seq<TodoItem>, r2: seq<TodoItem>)
    requires Sorted(r1) && Sorted(r2) && r1 != [] && r2 != []
    requires StableFrom(r1, r2)
    ensures r1[0] == r2[0]
  {
    var x, y := r1[0], r2[0];
    // Each head occurs in the other list, so each is no greater than the other.
    HeadOfOwnTies(r1);
    HeadOfOwnTies(r2);
    assert x in TiesOf(r2, x);
    TiesComeFrom(r2, x, x);
    assert y in TiesOf(r1, y);
    TiesComeFrom(r1, y, y);
    SortedHeadLeast(r1, y);
    SortedHeadLeast(r2, x);
    CompareAntisymmetric(x, y);
    CompareZeroIffSameKey(y, x);
    // So `y` is the first tie of `x` in `r2`, which is `x` itself.
    TiesOfCons(r2, x);
  }

  /** Lists with the same ties and the same head have tails with the same ties. */
  lemma StableTails(r1: seq<TodoItem>, r2: seq<TodoItem>)
    requires r1 != [] && r2 != [] && r1[0] == r2[0]
    requires StableFrom(r1, r2)
    ensures StableFrom(r1[1..], r2[1..])
  {
    forall t ensures TiesOf(r1[1..], t) == TiesOf(r2[1..], t) {
      TiesOfCons(r1, t);
      TiesOfCons(r2, t);
      var front := if SameSortKey(r1[0], t) then [r1[0]] else [];
      assert (front + TiesOf(r1[1..], t))[|front|..] == TiesOf(r1[1..], t);
      assert (front + TiesOf(r2[1..], t))[|front|..] == TiesOf(r2[1..], t);
    }
  }

  /**
   * A sorted list that keeps `s`'s order among ties is unique: a sorted, stable
   * result is fully determined by its input.
   */
  lemma {:induction false} SortedStableUnique(r1: seq<TodoItem>, r2: seq<TodoItem>)
    requires Sorted(r1) && Sorted(r2)
    requires StableFrom(r1, r2)
    ensures r1 == r2
  {
    if r1 == [] && r2 != [] {
      HeadOfOwnTies(r2);
    } else if r1 != [] && r2 == [] {
      HeadOfOwnTies(r1);
    } else if r1 != [] {
      SortedStableHeads(r1, r2);
      StableTails(r1, r2);
      assert Sorted(r1[1..]) && Sorted(r2[1..]);
      SortedStableUnique(r1[1..], r2[1..]);
      assert r1 == [r1[0]] + r1[1..] && r2 == [r2[0]] + r2[1..];
    }
  }

  /** Stability composes: a stable rearrangement of a stable rearrangement is stable. */
  lemma StableTrans(r: seq<TodoItem>, m: seq<TodoItem>, s: seq<TodoItem>)
    requires StableFrom(r, m) && StableFrom(m, s)
    ensures StableFrom(r, s)
  {
  }

  /** Swaps `a[j - 1]` and `a[j]`, two todos with different sort keys: a stable step. */
  method SwapNeighbours(a: array<TodoItem>, j: int)
    requires 0 < j < a.Length && !SameSortKey(a[j - 1], a[j])
    modifies a
    ensures a[..] == old(a[..])[j - 1 := old(a[j])][j := old(a[j - 1])]
    ensures multiset(a[..]) == multiset(old(a[..]))
    ensures StableFrom(a[..], old(a[..]))
  {
    a[j - 1], a[j] := a[j], a[j - 1];
    SwapStable(old(a[..]), a[..], j);
  }

  /**
   * The state of one insertion pass over `s[..i + 1]`: the todo being inserted sits at
   * `j`, everything else up to `i` is in order, and it is no greater than what follows it.
   */
  ghost predicate Inserting(s: seq<TodoItem>, i: int, j: int) {
    0 <= j <= i < |s|
    && (forall p, q :: 0 <= p < q <= i && p != j && q != j ==> Le(s[p], s[q]))
    && (forall q :: j < q <= i ==> Le(s[j], s[q]))
  }

  /** Swapping the inserted todo with a strictly greater predecessor keeps the pass going. */
  lemma InsertingStep(s: seq<TodoItem>, i: int, j: int)
    requires Inserting(s, i, j) && 0 < j && Compare(s[j - 1], s[j]) > 0
    ensures Inserting(s[j - 1 := s[j]][j := s[j - 1]], i, j - 1)
  {
    var s' := s[j - 1 := s[j]][j := s[j - 1]];
    CompareAntisymmetric(s[j - 1], s[j]);
    forall q | j - 1 < q <= i ensures Le(s'[j - 1], s'[q]) {
      if q > j { CompareTransitive(s[j], s[j - 1], s[q]); }
    }
  }

  /** Once the predecessor is no greater, the prefix up to `i` is sorted. */
  lemma InsertingDone(s: seq<TodoItem>, i: int, j: int)
    requires Inserting(s, i, j) && (j == 0 || Compare(s[j - 1], s[j]) <= 0)
    ensures forall p, q :: 0 <= p < q <= i ==> Le(s[p], s[q])
  {
    forall p, q | 0 <= p < q <= i ensures Le(s[p], s[q]) {
      if q == j && p < j - 1 { CompareTransitive(s[p], s[j - 1], s[j]); }
    }
  }

  /**
   * One pass of the insertion sort: moves `a[i]` down past the larger todos of the
   * sorted prefix `a[..i]`, swapping only neighbours the comparator puts strictly
   * out of order.
   */
  method InsertInto(a: array<TodoItem>, i: int)
    requires 0 < i < a.Length
    requires forall p, q :: 0 <= p < q < i ==> Le(a[p], a[q])
    modifies a
    ensures forall p, q :: 0 <= p < q <= i ==> Le(a[p], a[q])
    ensures multiset(a[..]) == multiset(old(a[..]))
    ensures StableFrom(a[..], old(a[..]))
  {
    var j := i;
    while j > 0 && Compare(a[j - 1], a[j]) > 0
      invariant Inserting(a[..], i, j)
      invariant multiset(a[..]) == multiset(old(a[..]))
      invariant StableFrom(a[..], old(a[..]))
    {
      InsertingStep(a[..], i, j);
      CompareAntisymmetric(a[j - 1], a[j]);
      CompareZeroIffSameKey(a[j - 1], a[j]);
      ghost var before := a[..];
      SwapNeighbours(a, j);
      StableTrans(a[..], before, old(a[..]));
      j := j - 1;
    }
    InsertingDone(a[..], i, j);
  }

  /** `result.sort(compare)`, in place, as an insertion sort: sorted, and stable. */
  method SortTodos(a: array<TodoItem>)
    modifies a
    ensures Sorted(a[..])
    ensures multiset(a[..]) == multiset(old(a[..]))
    ensures StableFrom(a[..], old(a[..]))
  {
    if a.Length == 0 { return; }
    var i := 1;
    while i < a.Length
      invariant 1 <= i <= a.Length
      invariant forall p, q :: 0 <= p < q < i ==> Le(a[p], a[q])
      invariant multiset(a[..]) == multiset(old(a[..]))
      invariant StableFrom(a[..], old(a[..]))
    {
      ghost var before := a[..];
      InsertInto(a, i);
      StableTrans(a[..], before, old(a[..]));
      i := i + 1;
    }
  }

  /** The search stage of `applyFilters`: an empty query keeps everything. */
  predicate PassesSearch(t: TodoItem, searchQuery: string) {
    searchQuery == [] || MatchesSearch(t, Lower(searchQuery))
  }

  /** A copy of `s`, sorted in place by `SortTodos`. */
  method SortedCopy(s: seq<TodoItem>) returns (r: seq<TodoItem>)
    ensures Sorted(r)
    ensures multiset(r) == multiset(s)
    ensures StableFrom(r, s)
  {
    var a := new TodoItem[|s|](i requires 0 <= i < |s| => s[i]);
    assert a[..] == s;
    SortTodos(a);
    r := a[..];
  }

  /** The test of `applyFilters`, as a filter predicate. */
  function Keeper(searchQuery: string, filters: Filters): TodoItem -> bool {
    (t: TodoItem) => Keeps(t, searchQuery, filters)
  }

  /**
   * The todos `applyFilters` keeps, in the order of the list: each of the three
   * `filter` calls keeps order, so their result is this one filter.
   */
  function Kept(todos: seq<TodoItem>, searchQuery: string, filters: Filters): (r: seq<TodoItem>)
    ensures forall t :: multiset(r)[t] == if Keeps(t, searchQuery, filters) then multiset(todos)[t] else 0
  {
    FilterMultiset(todos, Keeper(searchQuery, filters));
    Filter(todos, Keeper(searchQuery, filters))
  }

  /**
   * `applyFilters`: the search, status and priority filters applied in turn to a
   * copy of `todos`, then sorted. The result holds exactly the kept todos, each as
   * often as in `todos`, sorted, with ties in the order of the list.
   */
  method SelectAndSort(todos: seq<TodoItem>, searchQuery: string, filters: Filters) returns (result: seq<TodoItem>)
    ensures forall t :: multiset(result)[t] == if Keeps(t, searchQuery, filters) then multiset(todos)[t] else 0
    ensures Sorted(result)
    ensures StableFrom(result, Kept(todos, searchQuery, filters))
  {
    result := todos;
    ghost var searched := (t: TodoItem) => PassesSearch(t, searchQuery);
    if searchQuery != [] {
      var query := Lower(searchQuery);
      var matches := (t: TodoItem) => MatchesSearch(t, query);
      result := Filter(result, matches);
      FilterSame(todos, matches, searched);
    } else {
      FilterKeepsAll(todos, searched);
    }
    assert result == Filter(todos, searched);
    ghost var statused := (t: TodoItem) => PassesSearch(t, searchQuery) && MatchesStatus(t, filters.status);
    if filters.status != AllStatuses {
      var wantCompleted := filters.status == CompletedOnly;
      var status := (t: TodoItem) => if wantCompleted then t.completed else !t.completed;
      result := Filter(result, status);
      FilterTwice(todos, searched, status, statused);
    } else {
      FilterSame(todos, searched, statused);
    }
    assert result == Filter(todos, statused);
    if filters.priority != AllPriorities {
      var p := filters.priority;
      var priority := (t: TodoItem) => t.priority == Some(p.priority);
      result := Filter(result, priority);
      FilterTwice(todos, statused, priority, Keeper(searchQuery, filters));
    } else {
      FilterSame(todos, statused, Keeper(searchQuery, filters));
    }
    assert result == Kept(todos, searchQuery, filters);
    result := SortedCopy(result);
  }
}
