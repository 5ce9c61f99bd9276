/**
 * The task dashboard: the task list loaded from the API, creation, status change and
 * deletion, each mirrored onto the task-room relay, and the merge an incoming
 * 'task-updated' event applies to the list.
 *
 * Each request's outcome is a parameter: the parsed reply of a successful request, the
 * `error` field of an unsuccessful one, or the message of an exception.
 */
module Dashboard {
  import opened Wrappers
  import opened Text
  import opened Seqs
  import opened Tasks
  import opened SocketClient

  /** `{...task, ...update}`: each field the update carries replaces the task's. */
  function Merge(task: Task, u: TaskUpdate): (r: Task)
    ensures r.id == task.id && r.userId == task.userId
    ensures r.createdAt == task.createdAt && r.updatedAt == task.updatedAt
    ensures u.title.None? ==> r.title == task.title
    ensures u.title.Some? ==> r.title == u.title.value
    ensures u.description.None? ==> r.description == task.description
    ensures u.description.Some? ==> r.description == u.description
    ensures u.status.None? ==> r.status == task.status
    ensures u.status.Some? ==> r.status == u.status.value
    ensures u.dueDate.None? ==> r.dueDate == task.dueDate
    ensures u.dueDate.Some? ==> r.dueDate == u.dueDate
  {
    task.(
      title := u.title.GetOr(task.title),
      description := if u.description.Some? then u.description else task.description,
      status := u.status.GetOr(task.status),
      dueDate := if u.dueDate.Some? then u.dueDate else task.dueDate)
  }

  const NoChange: TaskUpdate := TaskUpdate(None, None, None, None)

  /** Two updates as one: a field of the later one wins. */
  function Then(u1: TaskUpdate, u2: TaskUpdate): TaskUpdate {
    TaskUpdate(
      if u2.title.Some? then u2.title else u1.title,
      if u2.description.Some? then u2.description else u1.description,
      if u2.status.Some? then u2.status else u1.status,
      if u2.dueDate.Some? then u2.dueDate else u1.dueDate)
  }

  lemma MergeNoChange(task: Task)
    ensures Merge(task, NoChange) == task
  {
  }

  lemma MergeIdempotent(task: Task, u: TaskUpdate)
    ensures Merge(Merge(task, u), u) == Merge(task, u)
  {
  }

  lemma MergeThen(task: Task, u1: TaskUpdate, u2: TaskUpdate)
    ensures Merge(Merge(task, u1), u2) == Merge(task, Then(u1, u2))
  {
  }

  /** The listener's `prevTasks.map(...)`: merge the update into the task with that id. */
  function MergeInto(tasks: seq<Task>, taskId: string, u: TaskUpdate): (r: seq<Task>)
    ensures |r| == |tasks|
    ensures forall i :: 0 <= i < |tasks| && tasks[i].id != taskId ==> r[i] == tasks[i]
    ensures forall i :: 0 <= i < |tasks| && tasks[i].id == taskId ==> r[i] == Merge(tasks[i], u)
  {
    seq(|tasks|, i requires 0 <= i < |tasks| => if tasks[i].id == taskId then Merge(tasks[i], u) else tasks[i])
  }

  lemma MergeIntoIdempotent(tasks: seq<Task>, taskId: string, u: TaskUpdate)
    ensures MergeInto(MergeInto(tasks, taskId, u), taskId, u) == MergeInto(tasks, taskId, u)
  {
    var once := MergeInto(tasks, taskId, u);
    forall i | 0 <= i < |tasks|
      ensures MergeInto(once, taskId, u)[i] == once[i]
    {
      if tasks[i].id == taskId {
        MergeIdempotent(tasks[i], u);
      }
    }
  }

  /**
   * The effect registers one more listener every time it runs and never removes one,
   * so an event reaches `k` listeners that each apply the same merge.
   */
  function MergeRepeatedly(tasks: seq<Task>, k: nat, taskId: string, u: TaskUpdate): seq<Task> {
    if k == 0 then tasks else MergeInto(MergeRepeatedly(tasks, k - 1, taskId, u), taskId, u)
  }

  /** Piled-up listeners are harmless: any number of them acts as one. */
  lemma {:induction false} RepeatedListenersHarmless(tasks: seq<Task>, k: nat, taskId: string, u: TaskUpdate)
    requires k >= 1
    ensures MergeRepeatedly(tasks, k, taskId, u) == MergeInto(tasks, taskId, u)
  {
    if k > 1 {
      RepeatedListenersHarmless(tasks, k - 1, taskId, u);
      MergeIntoIdempotent(tasks, taskId, u);
    }
  }

  /** The list after a successful status change: `{...task, status}` on the matching task. */
  function SetStatus(tasks: seq<Task>, taskId: string, s: TaskStatus): (r: seq<Task>)
    ensures |r| == |tasks|
  {
    seq(|tasks|, i requires 0 <= i < |tasks| => if tasks[i].id == taskId then tasks[i].(status := s) else tasks[i])
  }

  /** A status change is the merge of `{status}`: only that task's status changes. */
  lemma SetStatusIsMerge(tasks: seq<Task>, taskId: string, s: TaskStatus)
    ensures SetStatus(tasks, taskId, s) == MergeInto(tasks, taskId, StatusUpdate(s))
  {
    forall i | 0 <= i < |tasks|
      ensures SetStatus(tasks, taskId, s)[i] == MergeInto(tasks, taskId, StatusUpdate(s))[i]
    {
    }
  }

  /** The relay echoes a status change back to its sender; merging the echo changes nothing. */
  lemma StatusEchoHarmless(tasks: seq<Task>, taskId: string, s: TaskStatus)
    ensures MergeInto(SetStatus(tasks, taskId, s), taskId, StatusUpdate(s)) == SetStatus(tasks, taskId, s)
  {
    SetStatusIsMerge(tasks, taskId, s);
    MergeIntoIdempotent(tasks, taskId, StatusUpdate(s));
  }

  /** The list after a successful delete. */
  function RemoveTask(tasks: seq<Task>, taskId: string): (r: seq<Task>)
    ensures forall t: Task :: t in r <==> t in tasks && t.id != taskId
    ensures forall t: Task :: t.id != taskId ==> multiset(r)[t] == multiset(tasks)[t]
  {
    var keep := (t: Task) => t.id != taskId;
    FilterMultiset(tasks, keep);
    var r := Filter(tasks, keep);
    assert forall t :: t in r ==> multiset(r)[t] > 0;
    assert forall t :: t in tasks ==> multiset(tasks)[t] > 0;
    assert forall t :: multiset(r)[t] > 0 ==> t in r;
    r
  }

  /**
   * A delete keeps the displayed order of the other tasks: it removes in place from
   * each part of a split list, and a list without the id comes back unchanged.
   */
  lemma RemoveTaskKeepsOrder(a: seq<Task>, b: seq<Task>, taskId: string)
    ensures RemoveTask(a + b, taskId) == RemoveTask(a, taskId) + RemoveTask(b, taskId)
    ensures (forall i :: 0 <= i < |a| ==> a[i].id != taskId) ==> RemoveTask(a, taskId) == a
  {
    FilterAppend(a, b, (t: Task) => t.id != taskId);
    if forall i :: 0 <= i < |a| ==> a[i].id != taskId {
      FilterKeepsAll(a, (t: Task) => t.id != taskId);
    }
  }

  /** `data.error || fallback`. */
  function ErrorText(error: Option<string>, fallback: string): (m: string)
    ensures error.Some? && error.value != [] ==> m == error.value
    ensures error.None? || error.value == [] ==> m == fallback
  {
    if error.Some? && error.value != [] then error.value else fallback
  }

  /** How a request ended. */
  datatype Reply<T> =
    | Success(body: T)
    | HttpError(status: int, error: Option<string>)
    | Exception(message: string)

  /** The error message a failed request leaves on the page. */
  function FailureMessage<T>(reply: Reply<T>, fallback: string): (m: string)
    requires !reply.Success?
    ensures reply.HttpError? ==> m == ErrorText(reply.error, fallback)
    ensures reply.Exception? ==> m == reply.message
  {
    if reply.HttpError? then ErrorText(reply.error, fallback) else reply.message
  }

  const TitleRequired: string := "Task title is required"
  const LoginPath: string := "/auth/login"

  /** The body of a create request. */
  datatype CreateTaskRequest = CreateTaskRequest(title: string, description: string)

  /** The join emissions of one effect run over `tasks`, on connection `serial`. */
  function JoinAll(serial: nat, tasks: seq<Task>): (r: seq<Emission>)
    ensures |r| == |tasks|
  {
    seq(|tasks|, i requires 0 <= i < |tasks| => Emission(serial, JoinRoom(tasks[i].id)))
  }

  /** The leave emissions of that run's cleanup, on connection `serial`. */
  function LeaveAll(serial: nat, tasks: seq<Task>): (r: seq<Emission>)
    ensures |r| == |tasks|
  {
    seq(|tasks|, i requires 0 <= i < |tasks| => Emission(serial, LeaveRoom(tasks[i].id)))
  }

  /** The task ids named by the join or leave events in `es`. */
  function RoomIds(es: seq<Emission>): set<string> {
    set i | 0 <= i < |es| && (es[i].event.JoinRoom? || es[i].event.LeaveRoom?) :: es[i].event.taskId
  }

  /** A cleanup leaves exactly the rooms its effect run joined: one per task of the list. */
  lemma CleanupLeavesJoinedRooms(s1: nat, s2: nat, tasks: seq<Task>)
    ensures RoomIds(JoinAll(s1, tasks)) == (set t | t in tasks :: t.id)
    ensures RoomIds(LeaveAll(s2, tasks)) == (set t | t in tasks :: t.id)
  {
    var joins, leaves := JoinAll(s1, tasks), LeaveAll(s2, tasks);
    forall id | id in (set t | t in tasks :: t.id)
      ensures id in RoomIds(joins) && id in RoomIds(leaves)
    {
      var i :| 0 <= i < |tasks| && tasks[i].id == id;
      assert joins[i].event.taskId == id && leaves[i].event.taskId == id;
    }
  }

  class DashboardPage {
    var tasks: seq<Task>
    var loading: bool
    var error: Option<string>
    var newTaskTitle: string
    var newTaskDescription: string
    /** The paths `router.push` was called with, in order. */
    var navigations: seq<string>
    /** The `useSocket` hook this page uses. */
    const client: Client

    constructor (client: Client)
      ensures tasks == [] && loading && error.None?
      ensures newTaskTitle == [] && newTaskDescription == [] && navigations == []
      ensures this.client == client
    {
      tasks := [];
      loading := true;
      error := None;
      newTaskTitle := [];
      newTaskDescription := [];
      navigations := [];
      this.client := client;
    }

    /**
     * `fetchTasks`: a 401 sends the user to the login page without touching the list;
     * any other failure records its message; loading ends in every case.
     */
    method FetchTasks(reply: Reply<seq<Task>>)
      modifies this
      ensures !loading
      ensures reply.Success? ==> tasks == reply.body && error == old(error) && navigations == old(navigations)
      ensures reply.HttpError? && reply.status == 401 ==>
        tasks == old(tasks) && error == old(error) && navigations == old(navigations) + ["/auth/login"]
      ensures (reply.HttpError? && reply.status != 401) || reply.Exception? ==>
        tasks == old(tasks) && navigations == old(navigations)
        && error == Some(FailureMessage(reply, "Failed to fetch tasks"))
      ensures newTaskTitle == old(newTaskTitle) && newTaskDescription == old(newTaskDescription)
    {
      match reply {
        case Success(body) =>
          tasks := body;
        case HttpError(status, _) =>
          if status == 401 {
            navigations := navigations + [LoginPath];
          } else {
            error := Some(FailureMessage(reply, "Failed to fetch tasks"));
          }
        case Exception(message) =>
          error := Some(message);
      }
      loading := false;
    }

    /**
     * `handleCreateTask`: a blank title is refused before any request; a created task
     * goes to the front of the list, the form is cleared and the task's room joined.
     */
    method HandleCreateTask(reply: Reply<Task>) returns (request: Option<CreateTaskRequest>)
      modifies this, client`emitted
      ensures IsBlank(old(newTaskTitle)) ==>
        request.None? && error == Some("Task title is required") && tasks == old(tasks)
        && newTaskTitle == old(newTaskTitle) && newTaskDescription == old(newTaskDescription)
        && client.emitted == old(client.emitted)
      ensures !IsBlank(old(newTaskTitle)) ==>
        request == Some(CreateTaskRequest(old(newTaskTitle), old(newTaskDescription)))
      ensures !IsBlank(old(newTaskTitle)) && reply.Success? ==>
        tasks == [reply.body] + old(tasks) && newTaskTitle == [] && newTaskDescription == []
        && error == old(error)
        && client.emitted == old(client.emitted) + EmitOn(client.current, JoinRoom(reply.body.id))
      ensures !IsBlank(old(newTaskTitle)) && !reply.Success? ==>
        tasks == old(tasks) && newTaskTitle == old(newTaskTitle) && newTaskDescription == old(newTaskDescription)
        && error == Some(FailureMessage(reply, "Failed to create task"))
        && client.emitted == old(client.emitted)
      ensures loading == old(loading) && navigations == old(navigations)
    {
      if IsBlank(newTaskTitle) {
        error := Some(TitleRequired);
        return None;
      }
      request := Some(CreateTaskRequest(newTaskTitle, newTaskDescription));
      if reply.Success? {
        tasks := [reply.body] + tasks;
        newTaskTitle := [];
        newTaskDescription := [];
        client.JoinTaskRoom(reply.body.id);
      } else {
        error := Some(FailureMessage(reply, "Failed to create task"));
      }
    }

    /**
     * `handleStatusChange`: the request carries `{status}`; on success only the matching
     * task's status changes and the same `{status}` goes to the task's room.
     */
    method HandleStatusChange(taskId: string, status: TaskStatus, reply: Reply<()>) returns (request: TaskUpdate)
      modifies this, client`emitted
      ensures request == StatusUpdate(status)
      ensures reply.Success? ==>
        tasks == SetStatus(old(tasks), taskId, status) && error == old(error)
        && client.emitted == old(client.emitted) + EmitOn(client.current, SendUpdate(taskId, StatusUpdate(status)))
      ensures !reply.Success? ==>
        tasks == old(tasks) && error == Some(FailureMessage(reply, "Failed to update task"))
        && client.emitted == old(client.emitted)
      ensures loading == old(loading) && navigations == old(navigations)
      ensures newTaskTitle == old(newTaskTitle) && newTaskDescription == old(newTaskDescription)
    {
      request := StatusUpdate(status);
      if reply.Success? {
        tasks := SetStatus(tasks, taskId, status);
        client.EmitTaskUpdate(taskId, StatusUpdate(status));
      } else {
        error := Some(FailureMessage(reply, "Failed to update task"));
      }
    }

    /** `handleDeleteTask`: on success the task leaves the list and its room is left. */
    method HandleDeleteTask(taskId: string, reply: Reply<()>)
      modifies this, client`emitted
      ensures reply.Success? ==>
        tasks == RemoveTask(old(tasks), taskId) && error == old(error)
        && client.emitted == old(client.emitted) + EmitOn(client.current, LeaveRoom(taskId))
      ensures !reply.Success? ==>
        tasks == old(tasks) && error == Some(FailureMessage(reply, "Failed to delete task"))
        && client.emitted == old(client.emitted)
      ensures loading == old(loading) && navigations == old(navigations)
      ensures newTaskTitle == old(newTaskTitle) && newTaskDescription == old(newTaskDescription)
    {
      if reply.Success? {
        tasks := RemoveTask(tasks, taskId);
        client.LeaveTaskRoom(taskId);
      } else {
        error := Some(FailureMessage(reply, "Failed to delete task"));
      }
    }

    /** The dismiss button of the error banner. */
    method DismissError()
      modifies this`error
      ensures error.None?
    {
      error := None;
    }

    /**
     * The socket effect: with a connection, join the room of every task and register
     * the merging listener; the returned snapshot is what the cleanup will leave.
     */
    method SocketEffect(callback: nat) returns (cleanup: Option<seq<Task>>)
      modifies client`emitted, client`registered
      ensures client.current.None? ==>
        cleanup.None? && client.emitted == old(client.emitted) && client.registered == old(client.registered)
      ensures client.current.Some? ==>
        cleanup == Some(tasks)
        && client.emitted == old(client.emitted) + JoinAll(client.current.value.serial, tasks)
        && client.registered == old(client.registered)
                                + [Registration(client.current.value.serial, "task-updated", callback)]
    {
      if client.current.None? {
        return None;
      }
      var serial := client.current.value.serial;
      for i := 0 to |tasks|
        invariant client.emitted == old(client.emitted) + JoinAll(serial, tasks[..i])
        invariant client.registered == old(client.registered)
      {
        client.JoinTaskRoom(tasks[i].id);
        assert JoinAll(serial, tasks[..i + 1]) == JoinAll(serial, tasks[..i]) + [Emission(serial, JoinRoom(tasks[i].id))];
      }
      assert tasks[..|tasks|] == tasks;
      client.OnTaskUpdate(callback);
      cleanup := Some(tasks);
    }

    /** The effect's cleanup: leave the room of every task of its snapshot. */
    method SocketCleanup(snapshot: seq<Task>)
      modifies client`emitted
      ensures client.current.None? ==> client.emitted == old(client.emitted)
      ensures client.current.Some? ==>
        client.emitted == old(client.emitted) + LeaveAll(client.current.value.serial, snapshot)
    {
      if client.current.None? {
        return;
      }
      var serial := client.current.value.serial;
      for i := 0 to |snapshot|
        invariant client.emitted == old(client.emitted) + LeaveAll(serial, snapshot[..i])
      {
        client.LeaveTaskRoom(snapshot[i].id);
        assert LeaveAll(serial, snapshot[..i + 1]) == LeaveAll(serial, snapshot[..i]) + [Emission(serial, LeaveRoom(snapshot[i].id))];
      }
      assert snapshot[..|snapshot|] == snapshot;
    }

    /** One registered listener receiving 'task-updated'. */
    method OnTaskUpdated(taskId: string, update: TaskUpdate)
      modifies this`tasks
      ensures tasks == MergeInto(old(tasks), taskId, update)
    {
      tasks := MergeInto(tasks, taskId, update);
    }
  }
}
