/**
 * The shapes of the todo page: priorities, tags and subtasks from the Todo and
 * Subtask components, the page's todo record, and the toolbar's filter settings.
 * Dates are integer timestamps (milliseconds).
 */
module TodoTypes {
  import opened Wrappers
  import opened Seqs

  datatype Priority = Low | Medium | High

  datatype Tag = Tag(id: string, name: string, color: string)

  datatype Subtask = Subtask(id: string, title: string, completed: bool)

  /** A todo as the page holds it; the optional fields may be missing. */
  datatype TodoItem = TodoItem(
    id: int,
    title: string,
    description: Option<string>,
    completed: bool,
    createdAt: int,
    updatedAt: int,
    priority: Option<Priority>,
    dueDate: Option<int>,
    tags: Option<seq<Tag>>,
    subtasks: Option<seq<Subtask>>)

  datatype StatusFilter = AllStatuses | Active | CompletedOnly

  datatype PriorityFilter = AllPriorities | Only(priority: Priority)

  datatype Filters = Filters(status: StatusFilter, priority: PriorityFilter)

  const InitialFilters := Filters(AllStatuses, AllPriorities)

  predicate IsCompleted(t: TodoItem) { t.completed }

  predicate IsIncomplete(t: TodoItem) { !t.completed }

  /** `todos.filter(todo => todo.completed).length`. */
  function CompletedCount(todos: seq<TodoItem>): nat {
    Count(todos, IsCompleted)
  }
}
