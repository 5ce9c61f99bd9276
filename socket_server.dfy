/**
 * The server side of the task-room relay (`initSocketServer`): a handshake check
 * that admits only connections whose token decrypts to claims, room membership per
 * task, and the fan-out of a task update to every member of that task's room.
 *
 * Connections are numbered; `decrypt` is a parameter that stands for the token
 * decryption the server imports, including the possibility that it throws.
 */
module SocketServer {
  import opened Wrappers
  import opened Tasks
  import Auth

  type ConnId = nat

  /** What awaiting `decrypt(token)` gives: claims, null, or an exception. */
  datatype DecryptOutcome = Decoded(claims: Auth.Claims) | NullClaims | Threw

  /** The middleware's verdict on a handshake. */
  datatype Admission = Accepted(claims: Auth.Claims) | Rejected(message: string)

  /** One 'task-updated' event as a connection receives it. */
  datatype Delivery = Delivery(to: ConnId, taskId: string, update: TaskUpdate)

  const AuthenticationError: string := "Authentication error"
  const InvalidToken: string := "Invalid token"

  /** The `io.use` middleware on the handshake's `auth.token`. */
  function Authenticate(token: Option<string>, decrypt: string -> DecryptOutcome): (r: Admission)
    ensures r.Accepted? <==> !Auth.Falsy(token) && decrypt(token.value).Decoded?
    ensures r.Accepted? ==> r.claims == decrypt(token.value).claims
    ensures r == Rejected("Invalid token") <==> !Auth.Falsy(token) && decrypt(token.value).NullClaims?
    ensures r == Rejected("Authentication error") <==> Auth.Falsy(token) || decrypt(token.value).Threw?
  {
    if Auth.Falsy(token) then Rejected(AuthenticationError)
    else
      match decrypt(token.value)
      case Threw => Rejected(AuthenticationError)
      case NullClaims => Rejected(InvalidToken)
      case Decoded(claims) => Accepted(claims)
  }

  /** The room of a task. */
  function RoomName(taskId: string): string {
    "task-" + taskId
  }

  /** The fixed prefix keeps rooms of distinct tasks apart. */
  lemma RoomNameInjective(a: string, b: string)
    ensures RoomName(a) == RoomName(b) <==> a == b
  {
    if RoomName(a) == RoomName(b) {
      assert a == RoomName(a)[5..];
      assert b == RoomName(b)[5..];
    }
  }

  /** The set of connections that received something in `ds`. */
  function Recipients(ds: seq<Delivery>): (r: set<ConnId>)
    ensures forall c :: c in r <==> exists i :: 0 <= i < |ds| && ds[i].to == c
  {
    if ds == [] then {} else Recipients(ds[..|ds| - 1]) + {ds[|ds| - 1].to}
  }

  /** No connection appears twice among the recipients of `ds`. */
  predicate DistinctRecipients(ds: seq<Delivery>) {
    forall i, j :: 0 <= i < j < |ds| ==> ds[i].to != ds[j].to
  }

  /**
   * `ds` is a fan-out of `update` for `taskId` to `members`: every delivery carries the
   * identical task id and update, goes to a member, and each member receives exactly once.
   */
  predicate FanOut(ds: seq<Delivery>, members: set<ConnId>, taskId: string, update: TaskUpdate) {
    (forall i :: 0 <= i < |ds| ==> ds[i].taskId == taskId && ds[i].update == update)
    && Recipients(ds) == members
    && DistinctRecipients(ds)
  }

  /** With distinct recipients there are as many deliveries as recipients. */
  lemma {:induction false} DistinctRecipientsCount(ds: seq<Delivery>)
    requires DistinctRecipients(ds)
    ensures |Recipients(ds)| == |ds|
  {
    if ds != [] {
      var init := ds[..|ds| - 1];
      assert DistinctRecipients(init);
      DistinctRecipientsCount(init);
      assert ds[|ds| - 1].to !in Recipients(init);
    }
  }

  /** A fan-out sends one delivery per member, and nothing to a non-member. */
  lemma FanOutExactlyOnce(ds: seq<Delivery>, members: set<ConnId>, taskId: string, update: TaskUpdate, c: ConnId)
    requires FanOut(ds, members, taskId, update)
    ensures |ds| == |members|
    ensures c !in members ==> forall i :: 0 <= i < |ds| ==> ds[i].to != c
    ensures c in members ==> exists i :: 0 <= i < |ds| && ds[i].to == c
  {
    DistinctRecipientsCount(ds);
  }

  /** Sending to one more, not yet reached, connection extends a fan-out. */
  lemma FanOutExtend(ds: seq<Delivery>, members: set<ConnId>, m: ConnId, taskId: string, update: TaskUpdate)
    requires FanOut(ds, members, taskId, update) && m !in members
    ensures FanOut(ds + [Delivery(m, taskId, update)], members + {m}, taskId, update)
  {
    var ds' := ds + [Delivery(m, taskId, update)];
    assert ds'[..|ds'| - 1] == ds;
  }

  /** A fan-out to members of `users` delivers only to `users`. */
  lemma FanOutWithin(ds: seq<Delivery>, members: set<ConnId>, taskId: string, update: TaskUpdate, users: set<ConnId>)
    requires FanOut(ds, members, taskId, update) && members <= users
    ensures forall i :: 0 <= i < |ds| ==> ds[i].to in users
  {
    forall i | 0 <= i < |ds| ensures ds[i].to in users {
      assert ds[i].to in Recipients(ds);
    }
  }

  /**
   * `io.to(room).emit(...)`: one delivery of `update` for `taskId` to each member,
   * in whatever order the members are visited.
   */
  method FanOutTo(members: set<ConnId>, taskId: string, update: TaskUpdate) returns (ds: seq<Delivery>)
    ensures FanOut(ds, members, taskId, update)
  {
    ds := [];
    var pending := members;
    while pending != {}
      invariant pending <= members
      invariant FanOut(ds, members - pending, taskId, update)
      decreases pending
    {
      var m :| m in pending;
      FanOutExtend(ds, members - pending, m, taskId, update);
      ds := ds + [Delivery(m, taskId, update)];
      assert (members - pending) + {m} == members - (pending - {m});
      pending := pending - {m};
    }
    assert members - pending == members;
  }

  class Relay {
    /** `socket.data.user` of every admitted connection. */
    var users: map<ConnId, Auth.Claims>
    var rooms: map<string, set<ConnId>>
    var delivered: seq<Delivery>
    var log: seq<string>

    /** Only admitted connections are in rooms. */
    ghost predicate Valid()
      reads this
    {
      forall r :: r in rooms ==> rooms[r] <= users.Keys
    }

    function Members(room: string): set<ConnId>
      reads this
    {
      if room in rooms then rooms[room] else {}
    }

    constructor ()
      ensures Valid()
      ensures users == map[] && rooms == map[] && delivered == [] && log == []
    {
      users := map[];
      rooms := map[];
      delivered := [];
      log := [];
    }

    /**
     * A new connection's handshake: an admitted one carries its claims and is logged
     * as connected; a rejected one leaves no trace and reaches no handler.
     */
    method Connect(conn: ConnId, token: Option<string>, decrypt: string -> DecryptOutcome)
      returns (admission: Admission)
      requires Valid() && conn !in users
      modifies this`users, this`log
      ensures Valid()
      ensures admission == Authenticate(token, decrypt)
      ensures admission.Rejected? ==> users == old(users) && log == old(log)
      ensures admission.Accepted? ==>
        users == old(users)[conn := admission.claims]
        && log == old(log) + ["Client connected: " + admission.claims.email]
    {
      admission := Authenticate(token, decrypt);
      if admission.Accepted? {
        users := users[conn := admission.claims];
        log := log + ["Client connected: " + admission.claims.email];
      }
    }

    /** 'join-task-room': the connection joins the task's room. */
    method JoinTaskRoom(conn: ConnId, taskId: string)
      requires Valid()
      modifies this`rooms
      ensures Valid()
      ensures conn !in users ==> rooms == old(rooms)
      ensures conn in users ==> rooms == old(rooms)[RoomName(taskId) := old(Members(RoomName(taskId))) + {conn}]
    {
      if conn in users {
        var room := RoomName(taskId);
        rooms := rooms[room := Members(room) + {conn}];
      }
    }

    /** 'leave-task-room': the connection leaves the task's room and no other. */
    method LeaveTaskRoom(conn: ConnId, taskId: string)
      requires Valid()
      modifies this`rooms
      ensures Valid()
      ensures conn !in users || RoomName(taskId) !in old(rooms) ==> rooms == old(rooms)
      ensures conn in users && RoomName(taskId) in old(rooms) ==>
        rooms == old(rooms)[RoomName(taskId) := old(rooms)[RoomName(taskId)] - {conn}]
    {
      var room := RoomName(taskId);
      if conn in users && room in rooms {
        rooms := rooms[room := rooms[room] - {conn}];
      }
    }

    /**
     * 'task-update': every member of the task's room, the sender included when it is
     * one, receives the identical task id and update exactly once; nobody else does.
     */
    method TaskUpdate(conn: ConnId, taskId: string, update: Tasks.TaskUpdate)
      requires Valid()
      modifies this`delivered
      ensures conn !in users ==> delivered == old(delivered)
      ensures conn in users ==>
        |old(delivered)| <= |delivered|
        && delivered[..|old(delivered)|] == old(delivered)
        && FanOut(delivered[|old(delivered)|..], Members(RoomName(taskId)), taskId, update)
      ensures forall i :: |old(delivered)| <= i < |delivered| ==> delivered[i].to in users
    {
      if conn !in users {
        return;
      }
      var members := Members(RoomName(taskId));
      var ds := FanOutTo(members, taskId, update);
      FanOutWithin(ds, members, taskId, update, users.Keys);
      delivered := delivered + ds;
      assert delivered[..|old(delivered)|] == old(delivered);
      assert delivered[|old(delivered)|..] == ds;
    }

    /** 'disconnect': only a log line; membership and users are untouched. */
    method Disconnect(conn: ConnId)
      requires conn in users
      modifies this`log
      ensures log == old(log) + ["Client disconnected: " + users[conn].email]
    {
      log := log + ["Client disconnected: " + users[conn].email];
    }

    /**
     * The library's own teardown after 'disconnect': the connection leaves every room.
     * This is an assumption about the library, not code of the server.
     */
    method DropConnection(conn: ConnId)
      requires Valid()
      modifies this`users, this`rooms
      ensures Valid()
      ensures users == old(users) - {conn}
      ensures rooms == map r | r in old(rooms) :: old(rooms)[r] - {conn}
    {
      users := users - {conn};
      rooms := map r | r in rooms :: rooms[r] - {conn};
    }
  }
}
