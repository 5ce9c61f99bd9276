/**
 * The todo page's state and handlers: the todos it holds, the filtered view it
 * derives from them, the add/update/toggle/delete handlers around their requests,
 * and the subtask handlers. A `fetch` is not performed here: its outcome is a
 * parameter of the handler that awaits it.
 */
module TodoPage {
  import opened Wrappers
  import opened TodoTypes
  import opened TodoList
  import opened TodoForm

  /** A todo record as the todo API returns it. */
  datatype ServerTodo = ServerTodo(
    id: int,
    title: string,
    description: Option<string>,
    completed: bool,
    createdAt: int,
    updatedAt: int)

  /** How an awaited request ended: an ok response with its parsed body, or an error. */
  datatype Response<T> = Ok(body: T) | Failed

  /** The body of the create request: only the title and description are sent. */
  datatype CreateBody = CreateBody(title: string, description: string)

  const AddedMessage := "Task added successfully!"
  const UpdatedMessage := "Task updated successfully!"
  const DeletedMessage := "Task deleted successfully!"
  const AddFailed := "Failed to add todo"
  const UpdateFailed := "Failed to update todo"
  const DeleteFailed := "Failed to delete todo"

  /** The server record completed with the page-only fields. */
  function WithExtras(server: ServerTodo, priority: Option<Priority>, dueDate: Option<int>,
                      tags: Option<seq<Tag>>, subtasks: Option<seq<Subtask>>): (t: TodoItem)
    ensures t.id == server.id && t.title == server.title && t.description == server.description
    ensures t.completed == server.completed && t.createdAt == server.createdAt && t.updatedAt == server.updatedAt
    ensures t.priority == priority && t.dueDate == dueDate && t.tags == tags && t.subtasks == subtasks
  {
    TodoItem(server.id, server.title, server.description, server.completed, server.createdAt, server.updatedAt,
             priority, dueDate, tags, subtasks)
  }

  /** The demo fields `fetchTodos` draws at random for one todo. */
  datatype Decoration = Decoration(priority: Priority, dueDate: Option<int>, tags: seq<Tag>, subtasks: seq<Subtask>)

  const LoadFailed := "Failed to load todos"

  /** The confirmation dialog; `deleteId` is the todo its confirm button deletes, if any. */
  datatype ConfirmState = ConfirmState(isOpen: bool, title: string, message: string, deleteId: Option<int>)

  const ClosedDialog := ConfirmState(false, "", "", None)

  /** The question the dialog asks before deleting the todo titled `title`. */
  function DeleteQuestion(title: string): string {
    "Are you sure you want to delete \"" + title + "\"? This action cannot be undone."
  }

  /** The submitted due date as a timestamp; `parseDate` stands for `new Date(d).getTime()`. */
  function DueOf(form: TodoFormData, parseDate: string -> int): (d: Option<int>)
    ensures d.None? <==> form.dueDate.None?
  {
    if form.dueDate.Some? then Some(parseDate(form.dueDate.value)) else None
  }

  class Home {
    var todos: seq<TodoItem>
    var filteredTodos: seq<TodoItem>
    var error: Option<string>
    var success: Option<string>
    var searchQuery: string
    var filters: Filters
    var editingTodo: Option<TodoItem>
    var showAnalytics: bool
    var loading: bool
    var confirmDialog: ConfirmState

    /** The initial page state: nothing loaded, nothing searched, every filter at 'all'. */
    constructor ()
      ensures todos == [] && filteredTodos == [] && error == None && success == None
      ensures searchQuery == [] && filters == InitialFilters && editingTodo == None && !showAnalytics
      ensures loading && confirmDialog == ClosedDialog
    {
      loading, confirmDialog := true, ClosedDialog;
      todos, filteredTodos := [], [];
      error, success := None, None;
      searchQuery, filters := [], InitialFilters;
      editingTodo, showAnalytics := None, false;
    }

    /** The `completedTodos` count handed to the toolbar. */
    function CompletedTodos(): (n: nat)
      reads this
      ensures n <= |todos|
    {
      CompletedCount(todos)
    }

    /** `applyFilters`, run whenever the todos, the query or the filters change. */
    method ApplyFilters()
      modifies this`filteredTodos
      ensures forall t :: multiset(filteredTodos)[t] == if Keeps(t, searchQuery, filters) then multiset(todos)[t] else 0
      ensures Sorted(filteredTodos)
      ensures StableFrom(filteredTodos, Kept(todos, searchQuery, filters))
    {
      filteredTodos := SelectAndSort(todos, searchQuery, filters);
    }

    /**
     * `addTodo`: sends the title and description; on success prepends the server's
     * todo with the form's priority and due date, the chosen tags and no subtasks.
     */
    method AddTodo(formData: TodoFormData, response: Response<ServerTodo>, tags: seq<Tag>, parseDate: string -> int)
      returns (request: CreateBody)
      modifies this`todos, this`success, this`error
      ensures request == CreateBody(formData.title, formData.description)
      ensures response.Ok? ==>
        todos == Prepend(old(todos), WithExtras(response.body, Some(formData.priority), DueOf(formData, parseDate), Some(tags), Some([])))
        && success == Some(AddedMessage) && error == old(error)
      ensures response.Failed? ==> todos == old(todos) && success == old(success) && error == Some(AddFailed)
    {
      request := CreateBody(formData.title, formData.description);
      match response
      case Ok(newTodo) =>
        var enhanced := WithExtras(newTodo, Some(formData.priority), DueOf(formData, parseDate), Some(tags), Some([]));
        todos := Prepend(todos, enhanced);
        success := Some(AddedMessage);
      case Failed =>
        error := Some(AddFailed);
    }

    /**
     * `updateTodo`: without a todo being edited nothing is sent; otherwise the edited
     * todo is sent with the new title and description, and on success every todo
     * carrying its id is replaced and editing ends.
     */
    method UpdateTodo(formData: TodoFormData, response: Response<ServerTodo>, parseDate: string -> int)
      returns (request: Option<TodoItem>)
      modifies this`todos, this`editingTodo, this`success, this`error
      ensures old(editingTodo).None? ==>
        (request.None? && todos == old(todos) && editingTodo == old(editingTodo) && success == old(success) && error == old(error))
      ensures old(editingTodo).Some? ==>
        request == Some(old(editingTodo).value.(title := formData.title, description := Some(formData.description)))
      ensures old(editingTodo).Some? && response.Ok? ==>
        var e := old(editingTodo).value;
        todos == ReplaceById(old(todos), e.id,
                   WithExtras(response.body, Some(formData.priority), DueOf(formData, parseDate),
                              Some(e.tags.GetOr([])), Some(e.subtasks.GetOr([]))))
        && editingTodo == None && success == Some(UpdatedMessage) && error == old(error)
      ensures old(editingTodo).Some? && response.Failed? ==>
        todos == old(todos) && editingTodo == old(editingTodo) && success == old(success) && error == Some(UpdateFailed)
    {
      if editingTodo.None? {
        return None;
      }
      var editing := editingTodo.value;
      request := Some(editing.(title := formData.title, description := Some(formData.description)));
      match response
      case Ok(updated) =>
        var enhanced := WithExtras(updated, Some(formData.priority), DueOf(formData, parseDate),
                                   Some(editing.tags.GetOr([])), Some(editing.subtasks.GetOr([])));
        todos := ReplaceById(todos, editing.id, enhanced);
        editingTodo := None;
        success := Some(UpdatedMessage);
      case Failed =>
        error := Some(UpdateFailed);
    }

    /**
     * `toggleTodo`: an unknown id sends nothing; otherwise the todo is sent with
     * `completed` set to the negation of the flag the item passed, and on success
     * every todo carrying the id is replaced by the server's record with the
     * page-only fields carried over.
     */
    method ToggleTodo(id: int, completed: bool, response: Response<ServerTodo>) returns (request: Option<TodoItem>)
      modifies this`todos, this`error
      ensures request.None? <==> !HasId(old(todos), id)
      ensures request.None? ==> todos == old(todos) && error == old(error)
      ensures request.Some? ==>
        var t := FindById(old(todos), id).value;
        request.value == t.(completed := !completed)
        && (response.Ok? ==>
              todos == ReplaceById(old(todos), id, WithExtras(response.body, t.priority, t.dueDate, t.tags, t.subtasks))
              && error == old(error))
        && (response.Failed? ==> todos == old(todos) && error == Some(UpdateFailed))
    {
      var found := FindById(todos, id);
      if found.None? {
        return None;
      }
      var todoToUpdate := found.value;
      request := Some(todoToUpdate.(completed := !completed));
      match response
      case Ok(updated) =>
        var enhanced := WithExtras(updated, todoToUpdate.priority, todoToUpdate.dueDate, todoToUpdate.tags, todoToUpdate.subtasks);
        todos := ReplaceById(todos, id, enhanced);
      case Failed =>
        error := Some(UpdateFailed);
    }

    /** `deleteTodo`: on success removes every todo carrying the id. */
    method DeleteTodo(id: int, response: Response<()>)
      modifies this`todos, this`success, this`error
      ensures response.Ok? ==> todos == RemoveById(old(todos), id) && success == Some(DeletedMessage) && error == old(error)
      ensures response.Failed? ==> todos == old(todos) && success == old(success) && error == Some(DeleteFailed)
    {
      match response
      case Ok(_) =>
        todos := RemoveById(todos, id);
        success := Some(DeletedMessage);
      case Failed =>
        error := Some(DeleteFailed);
    }

    /**
     * `fetchTodos`: an ok response replaces the todos by the server's records, the
     * i-th one decorated with `decorate(i)` (the demo's random draws), and clears the
     * error; a failure keeps the todos and reports it. Loading ends either way.
     */
    method FetchTodos(response: Response<seq<ServerTodo>>, decorate: nat -> Decoration)
      modifies this`todos, this`error, this`loading
      ensures !loading
      ensures response.Ok? ==>
        |todos| == |response.body| && error == None
        && forall i :: 0 <= i < |todos| ==>
             todos[i] == WithExtras(response.body[i], Some(decorate(i).priority), decorate(i).dueDate,
                                    Some(decorate(i).tags), Some(decorate(i).subtasks))
      ensures response.Failed? ==> todos == old(todos) && error == Some(LoadFailed)
    {
      loading := true;
      match response {
        case Ok(data) =>
          todos := seq(|data|, i requires 0 <= i < |data| =>
                     WithExtras(data[i], Some(decorate(i).priority), decorate(i).dueDate,
                                Some(decorate(i).tags), Some(decorate(i).subtasks)));
          error := None;
        case Failed =>
          error := Some(LoadFailed);
      }
      loading := false;
    }

    /** `confirmDeleteTodo`: asks before deleting a known todo; an unknown id does nothing. */
    method ConfirmDeleteTodo(id: int)
      modifies this`confirmDialog
      ensures !HasId(todos, id) ==> confirmDialog == old(confirmDialog)
      ensures HasId(todos, id) ==>
        confirmDialog == ConfirmState(true, "Delete Task", DeleteQuestion(FindById(todos, id).value.title), Some(id))
    {
      var found := FindById(todos, id);
      if found.Some? {
        confirmDialog := ConfirmState(true, "Delete Task", DeleteQuestion(found.value.title), Some(id));
      }
    }

    /** The dialog's confirm button: runs the pending delete and closes the dialog. */
    method ConfirmDialogAccept(response: Response<()>)
      modifies this`todos, this`success, this`error, this`confirmDialog
      ensures confirmDialog == old(confirmDialog).(isOpen := false)
      ensures old(confirmDialog).deleteId.None? ==>
        todos == old(todos) && success == old(success) && error == old(error)
      ensures old(confirmDialog).deleteId.Some? && response.Ok? ==>
        todos == RemoveById(old(todos), old(confirmDialog).deleteId.value) && success == Some(DeletedMessage)
      ensures old(confirmDialog).deleteId.Some? && response.Failed? ==>
        todos == old(todos) && error == Some(DeleteFailed)
    {
      if confirmDialog.deleteId.Some? {
        DeleteTodo(confirmDialog.deleteId.value, response);
      }
      confirmDialog := confirmDialog.(isOpen := false);
    }

    /** The dialog's cancel button. */
    method ConfirmDialogCancel()
      modifies this`confirmDialog
      ensures confirmDialog == old(confirmDialog).(isOpen := false)
    {
      confirmDialog := confirmDialog.(isOpen := false);
    }

    /** `handleEditTodo`: starts editing the first todo carrying the id, if there is one. */
    method HandleEditTodo(id: int)
      modifies this`editingTodo
      ensures HasId(todos, id) ==> editingTodo == FindById(todos, id)
      ensures !HasId(todos, id) ==> editingTodo == old(editingTodo)
    {
      var found := FindById(todos, id);
      if found.Some? {
        editingTodo := found;
      }
    }

    /** `handleCancelEdit`. */
    method HandleCancelEdit()
      modifies this`editingTodo
      ensures editingTodo == None
    {
      editingTodo := None;
    }

    /** `handleSearch` and `handleFilter`: the toolbar's values are stored as given. */
    method HandleSearch(query: string)
      modifies this`searchQuery
      ensures searchQuery == query
    {
      searchQuery := query;
    }

    method HandleFilter(newFilters: Filters)
      modifies this`filters
      ensures filters == newFilters
    {
      filters := newFilters;
    }

    /** `handleToggleSubtask`. */
    method HandleToggleSubtask(todoId: int, subtaskId: string)
      modifies this`todos
      ensures todos == ToggleSubtask(old(todos), todoId, subtaskId)
    {
      todos := ToggleSubtask(todos, todoId, subtaskId);
    }

    /** `handleDeleteSubtask`. */
    method HandleDeleteSubtask(todoId: int, subtaskId: string)
      modifies this`todos
      ensures todos == DeleteSubtask(old(todos), todoId, subtaskId)
    {
      todos := DeleteSubtask(todos, todoId, subtaskId);
    }

    /** `handleAddSubtask`; `newId` stands for the generated random subtask id. */
    method HandleAddSubtask(todoId: int, title: string, newId: string)
      modifies this`todos
      ensures todos == AddSubtask(old(todos), todoId, newId, title)
    {
      todos := AddSubtask(todos, todoId, newId, title);
    }

    /** `toggleAnalytics`. */
    method ToggleAnalytics()
      modifies this`showAnalytics
      ensures showAnalytics == !old(showAnalytics)
    {
      showAnalytics := !showAnalytics;
    }
  }
}
