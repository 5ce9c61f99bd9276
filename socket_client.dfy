/**
 * The browser side of the task-room relay: the `useSocket` hook. A connection is
 * opened when the session carries a token and is torn down when the token changes or
 * the component unmounts; every operation acts on the connection the hook currently
 * holds and does nothing when it holds none.
 *
 * A connection is identified by a serial number in the order the hook opened them;
 * a callback is identified by a number standing for the function value.
 */
module SocketClient {
  import opened Wrappers
  import opened Tasks
  import Auth

  const DefaultUrl: string := "http://localhost:3000"

  /** `NEXT_PUBLIC_APP_URL || 'http://localhost:3000'`. */
  function ServerUrl(appUrl: Option<string>): (url: string)
    ensures !Auth.Falsy(appUrl) ==> url == appUrl.value
    ensures Auth.Falsy(appUrl) ==> url == "http://localhost:3000"
  {
    if Auth.Falsy(appUrl) then DefaultUrl else appUrl.value
  }

  /** The three events a client sends to the relay. */
  datatype ClientEvent =
    | JoinRoom(taskId: string)
    | LeaveRoom(taskId: string)
    | SendUpdate(taskId: string, update: TaskUpdate)

  /** The event name each one travels under. */
  function EventName(e: ClientEvent): string {
    match e
    case JoinRoom(_) => "join-task-room"
    case LeaveRoom(_) => "leave-task-room"
    case SendUpdate(_, _) => "task-update"
  }

  /** The one event a client listens for. */
  const TaskUpdated: string := "task-updated"

  /** A connection the hook opened, with the `auth.token` it presented. */
  datatype Connection = Connection(serial: nat, url: string, authToken: string)

  /** One event sent on the connection with serial `on`. */
  datatype Emission = Emission(on: nat, event: ClientEvent)

  /** One listener registered on the connection with serial `on`. */
  datatype Registration = Registration(on: nat, event: string, callback: nat)

  /** What `socketRef.current?.emit(e)` sends: one emission on the current connection, or nothing. */
  function EmitOn(current: Option<Connection>, e: ClientEvent): (r: seq<Emission>)
    ensures current.None? <==> r == []
    ensures current.Some? ==> r == [Emission(current.value.serial, e)]
  {
    if current.Some? then [Emission(current.value.serial, e)] else []
  }

  class Client {
    /** `socketRef.current`. */
    var current: Option<Connection>
    /** Every connection `io(...)` opened, in order. */
    var connections: seq<Connection>
    var emitted: seq<Emission>
    var registered: seq<Registration>
    /** Serials of the connections `disconnect()` was called on, in order. */
    var disconnected: seq<nat>

    ghost predicate Valid()
      reads this
    {
      (forall i :: 0 <= i < |connections| ==> connections[i].serial == i)
      && (current.Some? ==> current.value in connections)
    }

    constructor ()
      ensures Valid()
      ensures current.None? && connections == [] && emitted == [] && registered == [] && disconnected == []
    {
      current := None;
      connections := [];
      emitted := [];
      registered := [];
      disconnected := [];
    }

    /**
     * The effect body: without a token nothing is connected; otherwise a new connection
     * to the configured URL presenting the token becomes current, and the returned
     * teardown names that connection.
     */
    method Connect(token: Option<string>, appUrl: Option<string>) returns (teardown: Option<nat>)
      requires Valid()
      modifies this`current, this`connections
      ensures Valid()
      ensures Auth.Falsy(token) ==> teardown.None? && current == old(current) && connections == old(connections)
      ensures !Auth.Falsy(token) ==>
        var c := Connection(|old(connections)|, ServerUrl(appUrl), token.value);
        connections == old(connections) + [c] && current == Some(c) && teardown == Some(c.serial)
    {
      if Auth.Falsy(token) {
        return None;
      }
      var c := Connection(|connections|, ServerUrl(appUrl), token.value);
      connections := connections + [c];
      current := Some(c);
      teardown := Some(c.serial);
    }

    /** The teardown: disconnect the connection that run opened. The ref keeps it. */
    method Disconnect(serial: nat)
      modifies this`disconnected
      ensures disconnected == old(disconnected) + [serial]
    {
      disconnected := disconnected + [serial];
    }

    /**
     * A change of session token: React runs the previous run's teardown, then the
     * effect again.
     */
    method ChangeToken(teardown: Option<nat>, token: Option<string>, appUrl: Option<string>)
      returns (next: Option<nat>)
      requires Valid()
      modifies this`current, this`connections, this`disconnected
      ensures Valid()
      ensures disconnected == old(disconnected) + (if teardown.Some? then [teardown.value] else [])
      ensures Auth.Falsy(token) ==> next.None? && current == old(current) && connections == old(connections)
      ensures !Auth.Falsy(token) ==>
        var c := Connection(|old(connections)|, ServerUrl(appUrl), token.value);
        connections == old(connections) + [c] && current == Some(c) && next == Some(c.serial)
    {
      if teardown.Some? {
        Disconnect(teardown.value);
      }
      next := Connect(token, appUrl);
    }

    method JoinTaskRoom(taskId: string)
      modifies this`emitted
      ensures emitted == old(emitted) + EmitOn(current, JoinRoom(taskId))
    {
      if current.Some? {
        emitted := emitted + [Emission(current.value.serial, JoinRoom(taskId))];
      }
    }

    method LeaveTaskRoom(taskId: string)
      modifies this`emitted
      ensures emitted == old(emitted) + EmitOn(current, LeaveRoom(taskId))
    {
      if current.Some? {
        emitted := emitted + [Emission(current.value.serial, LeaveRoom(taskId))];
      }
    }

    method EmitTaskUpdate(taskId: string, update: TaskUpdate)
      modifies this`emitted
      ensures emitted == old(emitted) + EmitOn(current, SendUpdate(taskId, update))
    {
      if current.Some? {
        emitted := emitted + [Emission(current.value.serial, SendUpdate(taskId, update))];
      }
    }

    method OnTaskUpdate(callback: nat)
      modifies this`registered
      ensures current.None? ==> registered == old(registered)
      ensures current.Some? ==>
        registered == old(registered) + [Registration(current.value.serial, "task-updated", callback)]
    {
      if current.Some? {
        registered := registered + [Registration(current.value.serial, TaskUpdated, callback)];
      }
    }
  }
}
