/**
 * The dashboard's task records: a status from a fixed enumeration, and the
 * partial update that the update request and the relay carry.
 */
module Tasks {
  import opened Wrappers

  datatype TaskStatus = Pending | InProgress | Completed

  /** The wire value of each status. */
  function StatusText(s: TaskStatus): string {
    match s
    case Pending => "pending"
    case InProgress => "in-progress"
    case Completed => "completed"
  }

  /** Each status travels under its own value. */
  lemma StatusTextInjective(s: TaskStatus, t: TaskStatus)
    ensures StatusText(s) == StatusText(t) <==> s == t
  {
  }

  datatype Task = Task(
    id: string,
    title: string,
    description: Option<string>,
    status: TaskStatus,
    dueDate: Option<int>,
    userId: string,
    createdAt: int,
    updatedAt: int)

  /** A partial update: each field present replaces the task's, each missing one leaves it. */
  datatype TaskUpdate = TaskUpdate(
    title: Option<string>,
    description: Option<string>,
    status: Option<TaskStatus>,
    dueDate: Option<int>)

  /** The update `{status}`. */
  function StatusUpdate(s: TaskStatus): TaskUpdate {
    TaskUpdate(None, None, Some(s), None)
  }
}
