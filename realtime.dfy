/**
 * The realtime layer: the process-wide registry of which user holds which
 * socket in the application and which sockets and users are in which
 * whiteboard room, and the socket event handlers that update it and fan
 * events out to the other sockets of a room.
 *
 * A socket is its id. What the server emits to a socket is appended to that
 * socket's outbox; a socket the server disconnects is recorded in `closed`.
 * The event handlers a socket has attached are a set of `Listener`s; each
 * handler below first checks that its listener is attached (an event no
 * listener waits for is dropped) and then runs as one atomic step, with the
 * results of token verification and storage given as parameters.
 */
module Realtime {
  import opened Common
  import opened Model
  import opened Authorizer
  import WhiteboardController

  type RoomId = WhiteboardId

  /** What the server emits to a socket. */
  datatype Event =
    | JoinedApplication
    | ReceiveCollaborationInvite(inviter: Username)
    | AllConnectedUsers(users: seq<Username>)
    | UserConnected(username: Username)
    | UserDisconnected(username: Username)
    | DrawStartBC(line: Line, lineId: LineId)
    | DrawingBC(line: Line, lineId: LineId)
    | DrawEndBC(line: Line, lineId: LineId)
    | LineDeleteBC(lineId: LineId)

  /** The `{status}` acknowledgement of a join. */
  datatype Status = Ok | Ko

  /**
   * An attached event handler: one attached to the socket as a whole (by
   * the connection gate or by joining the application), or one attached by
   * joining a room, which remembers that room and the joining user.
   */
  datatype Listener =
    | OnSocket(event: string)
    | InRoom(event: string, room: RoomId, username: Username)

  type Outboxes = map<SocketId, seq<Event>>

  // ---------------------------------------------------------------------------
  // Emitting and fan-out
  // ---------------------------------------------------------------------------

  /** Everything emitted to socket `s` so far. */
  function Outbox(o: Outboxes, s: SocketId): seq<Event>
  {
    if s in o then o[s] else []
  }

  /** `socket.emit(e)`. */
  function Send(o: Outboxes, s: SocketId, e: Event): Outboxes
  {
    o[s := Outbox(o, s) + [e]]
  }

  /**
   * The broadcast loop: `members.forEach(c => if (origin !== c.id) c.emit(e))`,
   * in list order.
   */
  function FanOut(o: Outboxes, members: seq<SocketId>, origin: SocketId, e: Event): (r: Outboxes)
    ensures Outbox(r, origin) == Outbox(o, origin)
    decreases |members|
  {
    if members == [] then o
    else
      var before := FanOut(o, members[..|members| - 1], origin, e);
      var last := members[|members| - 1];
      if last != origin then Send(before, last, e) else before
  }

  /** How often `x` occurs in `s`. */
  function Count<T(==)>(s: seq<T>, x: T): nat
    decreases |s|
  {
    if s == [] then 0
    else Count(s[..|s| - 1], x) + (if s[|s| - 1] == x then 1 else 0)
  }

  function Repeat(e: Event, n: nat): seq<Event>
  {
    if n == 0 then [] else Repeat(e, n - 1) + [e]
  }

  /** Occurring in a list means occurring a positive number of times. */
  lemma {:induction false} CountPositive<T>(s: seq<T>, x: T)
    ensures Count(s, x) > 0 <==> x in s
  {
    if s != [] {
      CountPositive(s[..|s| - 1], x);
      assert s == s[..|s| - 1] + [s[|s| - 1]];
    }
  }

  /**
   * The fan-out rule: a broadcast appends the event to the outbox of every
   * socket of the list other than the originator, once per occurrence in the
   * list, and to no other outbox; the originator never receives it.
   */
  lemma {:induction false} FanOutDelivers(o: Outboxes, members: seq<SocketId>, origin: SocketId, e: Event, s: SocketId)
    ensures Outbox(FanOut(o, members, origin, e), s) == Outbox(o, s) + Repeat(e, if s == origin then 0 else Count(members, s))
    decreases |members|
  {
    if members != [] {
      var init, last := members[..|members| - 1], members[|members| - 1];
      FanOutDelivers(o, init, origin, e, s);
      assert Count(members, s) == Count(init, s) + (if last == s then 1 else 0);
      if last != origin {
        SendDelivers(FanOut(o, init, origin, e), last, e, s);
        if last == s {
          assert Repeat(e, Count(init, s) + 1) == Repeat(e, Count(init, s)) + [e];
        }
      }
    }
  }

  /** An emit appends to the addressee's outbox and to no other. */
  lemma SendDelivers(o: Outboxes, t: SocketId, e: Event, s: SocketId)
    ensures Outbox(Send(o, t, e), s) == if s == t then Outbox(o, s) + [e] else Outbox(o, s)
  {
  }

  /** A broadcast only creates outboxes for sockets of the list. */
  lemma {:induction false} FanOutKeys(o: Outboxes, members: seq<SocketId>, origin: SocketId, e: Event)
    ensures forall s :: s in FanOut(o, members, origin, e) ==> s in o || s in members
    decreases |members|
  {
    if members != [] {
      FanOutKeys(o, members[..|members| - 1], origin, e);
      assert forall s :: s in members[..|members| - 1] ==> s in members;
    }
  }

  /**
   * What a join delivers: the joiner's own outbox gets only the reply, every
   * other socket gets the announcement once per occurrence among the earlier
   * members.
   */
  lemma JoinDelivery(o: Outboxes, earlier: seq<SocketId>, joiner: SocketId, announcement: Event, reply: Event)
    ensures var after := Send(FanOut(o, earlier + [joiner], joiner, announcement), joiner, reply);
      && Outbox(after, joiner) == Outbox(o, joiner) + [reply]
      && forall t :: t != joiner ==> Outbox(after, t) == Outbox(o, t) + Repeat(announcement, Count(earlier, t))
  {
    FanOutDelivers(o, earlier + [joiner], joiner, announcement, joiner);
    forall t | t != joiner
      ensures Outbox(FanOut(o, earlier + [joiner], joiner, announcement), t) == Outbox(o, t) + Repeat(announcement, Count(earlier, t))
    {
      FanOutDelivers(o, earlier + [joiner], joiner, announcement, t);
      CountAppend(earlier, [joiner], t);
    }
  }

  // ---------------------------------------------------------------------------
  // Leaving: `list.filter(y => y !== x)`
  // ---------------------------------------------------------------------------

  /** The list without any occurrence of `x`, the others kept in order. */
  function Without<T(==)>(s: seq<T>, x: T): (r: seq<T>)
    ensures |r| <= |s|
    ensures x !in r
    decreases |s|
  {
    if s == [] then []
    else
      Without(s[..|s| - 1], x) + (if s[|s| - 1] == x then [] else [s[|s| - 1]])
  }

  /** Filtering keeps exactly the other elements, each as often as before, and drops `x` entirely. */
  lemma {:induction false} WithoutCounts<T>(s: seq<T>, x: T, y: T)
    ensures Count(Without(s, x), y) == if y == x then 0 else Count(s, y)
    decreases |s|
  {
    if s != [] {
      var init := s[..|s| - 1];
      var last := s[|s| - 1];
      WithoutCounts(init, x, y);
      CountAppend(Without(init, x), if last == x then [] else [last], y);
    }
  }

  lemma {:induction false} CountAppend<T>(a: seq<T>, b: seq<T>, y: T)
    ensures Count(a + b, y) == Count(a, y) + Count(b, y)
    decreases |b|
  {
    if b != [] {
      assert (a + b)[..|a + b| - 1] == a + b[..|b| - 1];
      CountAppend(a, b[..|b| - 1], y);
    } else {
      assert a + b == a;
    }
  }

  /** Filtering distributes over concatenation, which is to say it keeps the order of what it keeps. */
  lemma {:induction false} WithoutConcat<T>(a: seq<T>, b: seq<T>, x: T)
    ensures Without(a + b, x) == Without(a, x) + Without(b, x)
    decreases |b|
  {
    if b == [] {
      assert a + b == a;
    } else {
      assert (a + b)[..|a + b| - 1] == a + b[..|b| - 1];
      WithoutConcat(a, b[..|b| - 1], x);
    }
  }

  /** Filtering the same element out twice gives what filtering once gave. */
  lemma {:induction false} WithoutIdempotent<T>(s: seq<T>, x: T)
    ensures Without(Without(s, x), x) == Without(s, x)
    decreases |s|
  {
    if s != [] {
      var init := s[..|s| - 1];
      var last := s[|s| - 1];
      WithoutIdempotent(init, x);
      var tail := if last == x then [] else [last];
      WithoutConcat(Without(init, x), tail, x);
      if last != x {
        assert Without(tail, x) == Without([], x) + [last];
      }
    }
  }

  /** Filtering out an absent element changes nothing. */
  lemma {:induction false} WithoutAbsent<T>(s: seq<T>, x: T)
    requires x !in s
    ensures Without(s, x) == s
    decreases |s|
  {
    if s != [] {
      assert x !in s[..|s| - 1];
      WithoutAbsent(s[..|s| - 1], x);
    }
  }

  /** Membership after filtering. */
  lemma WithoutMembership<T>(s: seq<T>, x: T, y: T)
    ensures y in Without(s, x) <==> y in s && y != x
  {
    WithoutCounts(s, x, y);
    CountPositive(Without(s, x), y);
    CountPositive(s, y);
  }

  // ---------------------------------------------------------------------------
  // Listeners
  // ---------------------------------------------------------------------------

  /** The handlers joining a room attaches to the joining socket. */
  function RoomListeners(room: RoomId, username: Username): set<Listener>
  {
    {InRoom("drawStart", room, username), InRoom("drawing", room, username), InRoom("drawEnd", room, username),
     InRoom("lineDelete", room, username), InRoom("leftWhiteboard", room, username),
     InRoom("disconnectApplication", room, username), InRoom("disconnect", room, username)}
  }

  /** The events whose every listener leaving a room removes (in every room of the socket). */
  const ClearedOnLeave: set<string> := {"drawStart", "getAllConnectedUsers", "drawing", "drawEnd", "leftWhiteboard", "lineDelete"}

  /** The three ways a room is left: an explicit leave, leaving the application, or the transport closing. */
  const LeaveTriggers: set<string> := {"leftWhiteboard", "disconnectApplication", "disconnect"}

  /**
   * The listeners left after leaving `room`: every listener of a cleared
   * event goes, whatever its room, and so do this room's two leave hooks
   * on disconnect and disconnectApplication.
   */
  function AfterLeave(attached: set<Listener>, room: RoomId, username: Username): (r: set<Listener>)
    ensures r <= attached
    ensures forall l :: l in r ==> l.event !in ClearedOnLeave
    ensures forall t :: t in LeaveTriggers ==> InRoom(t, room, username) !in r
    ensures forall l :: (&& l in attached && l.event !in ClearedOnLeave
                         && l != InRoom("disconnect", room, username)
                         && l != InRoom("disconnectApplication", room, username)) ==> l in r
  {
    set l | l in attached && l.event !in ClearedOnLeave
                          && l != InRoom("disconnect", room, username)
                          && l != InRoom("disconnectApplication", room, username)
  }

  /** `removeAllListeners(event)`. */
  function RemoveAll(attached: set<Listener>, event: string): (r: set<Listener>)
    ensures forall l :: l in r <==> l in attached && l.event != event
  {
    set l | l in attached && l.event != event
  }

  // ---------------------------------------------------------------------------
  // Leaving a room
  // ---------------------------------------------------------------------------

  /** The room and user a `leftListener` closure was created for. */
  datatype Hook = Hook(room: RoomId, username: Username)

  /** The part of the registry a leave touches. */
  datatype RoomState = RoomState(rooms: map<RoomId, seq<SocketId>>, usersIn: map<RoomId, seq<Username>>,
                                 outbox: Outboxes, listeners: map<SocketId, set<Listener>>)

  function MembersOf(rooms: map<RoomId, seq<SocketId>>, room: RoomId): seq<SocketId>
  {
    if room in rooms then rooms[room] else []
  }

  function UsersOf(usersIn: map<RoomId, seq<Username>>, room: RoomId): seq<Username>
  {
    if room in usersIn then usersIn[room] else []
  }

  function AttachedOf(listeners: map<SocketId, set<Listener>>, s: SocketId): set<Listener>
  {
    if s in listeners then listeners[s] else {}
  }

  function RoomsOf(hooks: seq<Hook>): set<RoomId>
  {
    set h | h in hooks :: h.room
  }

  /**
   * One run of `leftListener` for socket `s`: every occurrence of the socket
   * and of the username leaves the room's lists (the rest keep their order),
   * the sockets still in the room are told the user disconnected, and the
   * socket's handlers become `AfterLeave`. The room's list must exist, since
   * reading it otherwise throws.
   */
  function LeaveStep(g: RoomState, s: SocketId, h: Hook): (r: RoomState)
    requires h.room in g.rooms
    ensures r.rooms.Keys == g.rooms.Keys
    ensures s !in MembersOf(r.rooms, h.room) && h.username !in UsersOf(r.usersIn, h.room)
    ensures AttachedOf(r.listeners, s) == AfterLeave(AttachedOf(g.listeners, s), h.room, h.username)
  {
    var members := Without(MembersOf(g.rooms, h.room), s);
    RoomState(g.rooms[h.room := members],
              g.usersIn[h.room := Without(UsersOf(g.usersIn, h.room), h.username)],
              FanOut(g.outbox, members, s, UserDisconnected(h.username)),
              g.listeners[s := AfterLeave(AttachedOf(g.listeners, s), h.room, h.username)])
  }

  /**
   * What a leave tells the others: each remaining socket of the room is sent
   * one `user-disconnected` per occurrence in the room's list; the leaver
   * and every socket outside the room are sent nothing.
   */
  lemma LeaveStepDelivers(g: RoomState, s: SocketId, h: Hook, t: SocketId)
    requires h.room in g.rooms
    ensures var r := LeaveStep(g, s, h);
      Outbox(r.outbox, t) ==
        Outbox(g.outbox, t) + Repeat(UserDisconnected(h.username), if t == s then 0 else Count(MembersOf(g.rooms, h.room), t))
  {
    var members := MembersOf(g.rooms, h.room);
    FanOutDelivers(g.outbox, Without(members, s), s, UserDisconnected(h.username), t);
    WithoutCounts(members, s, t);
  }

  /** The hooks of one event, run one after the other in the order they were attached. */
  function LeaveAll(g: RoomState, s: SocketId, hooks: seq<Hook>): (r: RoomState)
    requires forall h :: h in hooks ==> h.room in g.rooms
    ensures r.rooms.Keys == g.rooms.Keys
    decreases |hooks|
  {
    if hooks == [] then g
    else LeaveStep(LeaveAll(g, s, hooks[..|hooks| - 1]), s, hooks[|hooks| - 1])
  }

  /** The hooks only take sockets and users out of a room's lists, never put them in. */
  lemma {:induction false} LeaveAllShrinks(g: RoomState, s: SocketId, hooks: seq<Hook>, room: RoomId)
    requires forall h :: h in hooks ==> h.room in g.rooms
    ensures var r := LeaveAll(g, s, hooks);
      && (forall t :: t in MembersOf(r.rooms, room) ==> t in MembersOf(g.rooms, room))
      && (forall u :: u in UsersOf(r.usersIn, room) ==> u in UsersOf(g.usersIn, room))
    decreases |hooks|
  {
    if hooks != [] {
      var init, last := hooks[..|hooks| - 1], hooks[|hooks| - 1];
      assert forall h :: h in init ==> h in hooks;
      LeaveAllShrinks(g, s, init, room);
      var mid := LeaveAll(g, s, init);
      if last.room == room {
        forall t | t in Without(MembersOf(mid.rooms, room), s) ensures t in MembersOf(mid.rooms, room) {
          WithoutMembership(MembersOf(mid.rooms, room), s, t);
        }
        forall u | u in Without(UsersOf(mid.usersIn, room), last.username) ensures u in UsersOf(mid.usersIn, room) {
          WithoutMembership(UsersOf(mid.usersIn, room), last.username, u);
        }
      }
    }
  }

  /** A room no hook names keeps its lists. */
  lemma {:induction false} LeaveAllUntouched(g: RoomState, s: SocketId, hooks: seq<Hook>, room: RoomId)
    requires forall h :: h in hooks ==> h.room in g.rooms
    requires room !in RoomsOf(hooks)
    ensures var r := LeaveAll(g, s, hooks);
      MembersOf(r.rooms, room) == MembersOf(g.rooms, room) && UsersOf(r.usersIn, room) == UsersOf(g.usersIn, room)
    decreases |hooks|
  {
    if hooks != [] {
      var init := hooks[..|hooks| - 1];
      assert forall h :: h in init ==> h in hooks;
      assert hooks[|hooks| - 1] in hooks;
      LeaveAllUntouched(g, s, init, room);
    }
  }

  /** Once a hook of a room has run, the socket is not among the room's sockets. */
  lemma {:induction false} LeaveAllRemovesSocket(g: RoomState, s: SocketId, hooks: seq<Hook>, room: RoomId)
    requires forall h :: h in hooks ==> h.room in g.rooms
    requires room in RoomsOf(hooks)
    ensures s !in MembersOf(LeaveAll(g, s, hooks).rooms, room)
    decreases |hooks|
  {
    var init, last := hooks[..|hooks| - 1], hooks[|hooks| - 1];
    assert forall h :: h in init ==> h in hooks;
    if last.room != room {
      var h :| h in hooks && h.room == room;
      assert h in init by { assert hooks == init + [last]; }
      LeaveAllRemovesSocket(g, s, init, room);
      var mid := LeaveAll(g, s, init);
      WithoutMembership(MembersOf(mid.rooms, last.room), s, s);
    }
  }

  /** Once the hook of a room and user has run, the user is not among the room's users. */
  lemma {:induction false} LeaveAllRemovesUser(g: RoomState, s: SocketId, hooks: seq<Hook>, room: RoomId, u: Username)
    requires forall h :: h in hooks ==> h.room in g.rooms
    requires Hook(room, u) in hooks
    ensures u !in UsersOf(LeaveAll(g, s, hooks).usersIn, room)
    decreases |hooks|
  {
    var init, last := hooks[..|hooks| - 1], hooks[|hooks| - 1];
    assert forall h :: h in init ==> h in hooks;
    if last != Hook(room, u) {
      assert Hook(room, u) in init by { assert hooks == init + [last]; }
      LeaveAllRemovesUser(g, s, init, room, u);
      var mid := LeaveAll(g, s, init);
      if last.room == room {
        WithoutMembership(UsersOf(mid.usersIn, room), last.username, u);
      }
    }
  }

  /**
   * One handler of the socket after the hooks have run: it was held before,
   * and it is gone if its event is a cleared one (once any hook ran) or if
   * it is a leave hook of a hooked room.
   */
  lemma {:induction false} LeaveAllListener(g: RoomState, s: SocketId, hooks: seq<Hook>, l: Listener)
    requires forall h :: h in hooks ==> h.room in g.rooms
    ensures var r := LeaveAll(g, s, hooks);
      && (l in AttachedOf(r.listeners, s) ==> l in AttachedOf(g.listeners, s))
      && (hooks != [] && l.event in ClearedOnLeave ==> l !in AttachedOf(r.listeners, s))
      && (l.InRoom? && l.event in LeaveTriggers && Hook(l.room, l.username) in hooks ==> l !in AttachedOf(r.listeners, s))
    decreases |hooks|
  {
    if hooks != [] {
      var init, last := hooks[..|hooks| - 1], hooks[|hooks| - 1];
      assert forall h :: h in init ==> h in hooks;
      assert forall h :: h in hooks ==> h in init || h == last;
      LeaveAllListener(g, s, init, l);
    }
  }

  /** Every other handler of the socket survives the hooks. */
  lemma {:induction false} LeaveAllKeeps(g: RoomState, s: SocketId, hooks: seq<Hook>, l: Listener)
    requires forall h :: h in hooks ==> h.room in g.rooms
    requires l in AttachedOf(g.listeners, s) && l.event !in ClearedOnLeave
    requires !(l.InRoom? && l.event in LeaveTriggers && Hook(l.room, l.username) in hooks)
    ensures l in AttachedOf(LeaveAll(g, s, hooks).listeners, s)
    decreases |hooks|
  {
    if hooks != [] {
      assert forall h :: h in hooks[..|hooks| - 1] ==> h in hooks;
      LeaveAllKeeps(g, s, hooks[..|hooks| - 1], l);
    }
  }

  /** The hooks of socket `s` leave every other socket's handlers alone. */
  lemma {:induction false} LeaveAllOtherSockets(g: RoomState, s: SocketId, hooks: seq<Hook>, t: SocketId)
    requires forall h :: h in hooks ==> h.room in g.rooms
    requires t != s
    ensures AttachedOf(LeaveAll(g, s, hooks).listeners, t) == AttachedOf(g.listeners, t)
    decreases |hooks|
  {
    if hooks != [] {
      assert forall h :: h in hooks[..|hooks| - 1] ==> h in hooks;
      LeaveAllOtherSockets(g, s, hooks[..|hooks| - 1], t);
    }
  }

  // ---------------------------------------------------------------------------
  // The registry
  // ---------------------------------------------------------------------------

  class Registry {
    /** Username to the socket it last joined the application with. */
    var applicationData: map<Username, SocketId>
    /** Username to the room it last joined. */
    var users: map<Username, RoomId>
    /** Username to the socket it last joined a room with. */
    var connections: map<Username, SocketId>
    /** Room to the sockets in it, in joining order. */
    var rooms: map<RoomId, seq<SocketId>>
    /** Room to the usernames in it, in joining order. */
    var usersInWhiteboard: map<RoomId, seq<Username>>
    /** Socket to the handlers attached to it. */
    var listeners: map<SocketId, set<Listener>>
    /** Socket to everything emitted to it. */
    var outbox: Outboxes
    /** The sockets the server disconnected. */
    var closed: set<SocketId>

    /** Every socket that has connected. */
    ghost var seen: set<SocketId>
    /** The sockets that connected without an access token. */
    ghost var inert: set<SocketId>

    function Members(room: RoomId): seq<SocketId>
      reads this
    {
      MembersOf(rooms, room)
    }

    function UsersIn(room: RoomId): seq<Username>
      reads this
    {
      UsersOf(usersInWhiteboard, room)
    }

    function Attached(s: SocketId): set<Listener>
      reads this
    {
      AttachedOf(listeners, s)
    }

    /** The fields a leave reads and writes. */
    function State(): RoomState
      reads this
    {
      RoomState(rooms, usersInWhiteboard, outbox, listeners)
    }

    /**
     * The registry's invariant. A room's handlers exist only once the room's
     * lists do. Its last clause is the connection gate's promise: a socket
     * that connected without a token has no handler, is not in the
     * application, is in no room and was sent nothing.
     */
    ghost predicate Valid()
      reads this
    {
      && inert <= seen
      && listeners.Keys <= seen
      && outbox.Keys <= seen
      && applicationData.Values <= seen
      && rooms.Keys == usersInWhiteboard.Keys
      && (forall r, s :: r in rooms && s in rooms[r] ==> s in seen)
      && (forall s, l :: s in listeners && l in listeners[s] && l.InRoom? ==> l.room in rooms)
      && (forall s :: s in inert ==>
            && Attached(s) == {}
            && s !in outbox
            && s !in applicationData.Values
            && (forall r :: r in rooms ==> s !in rooms[r]))
    }

    constructor ()
      ensures Valid()
      ensures applicationData == map[] && users == map[] && connections == map[]
      ensures rooms == map[] && usersInWhiteboard == map[]
      ensures listeners == map[] && outbox == map[] && closed == {}
      ensures seen == {} && inert == {}
    {
      applicationData, users, connections := map[], map[], map[];
      rooms, usersInWhiteboard := map[], map[];
      listeners, outbox, closed := map[], map[], {};
      seen, inert := {}, {};
    }

    /**
     * The connection gate of `listen`: a socket whose handshake carries a
     * truthy access token gets the joinApplication, disconnectApplication and
     * disconnect handlers; any other socket gets none and stays inert.
     */
    method OnConnection(s: SocketId, handshakeToken: Option<string>)
      requires Valid() && s !in seen
      modifies this`listeners, this`seen, this`inert
      ensures Valid()
      ensures seen == old(seen) + {s}
      ensures Truthy(handshakeToken) ==>
        && listeners == old(listeners)[s := {OnSocket("joinApplication"), OnSocket("disconnectApplication"), OnSocket("disconnect")}]
        && inert == old(inert)
      ensures !Truthy(handshakeToken) ==> listeners == old(listeners) && inert == old(inert) + {s}
    {
      seen := seen + {s};
      if Truthy(handshakeToken) {
        listeners := listeners[s := {OnSocket("joinApplication"), OnSocket("disconnectApplication"), OnSocket("disconnect")}];
      } else {
        inert := inert + {s};
      }
    }

    /**
     * The broadcast loop over the room's current member list, skipping the
     * originator.
     */
    method Broadcast(room: RoomId, origin: SocketId, e: Event)
      requires Valid()
      modifies this`outbox
      ensures Valid()
      ensures outbox == FanOut(old(outbox), Members(room), origin, e)
    {
      var members := Members(room);
      var i := 0;
      while i < |members|
        invariant 0 <= i <= |members|
        invariant outbox == FanOut(old(outbox), members[..i], origin, e)
      {
        assert members[..i + 1][..i] == members[..i];
        if members[i] != origin {
          outbox := Send(outbox, members[i], e);
        }
        i := i + 1;
      }
      assert members[..|members|] == members;
      FanOutKeys(old(outbox), members, origin, e);
    }

    /**
     * The `joinApplication` handler. A token that does not validate answers
     * `{status: 'ko'}` and disconnects the socket, leaving the application
     * map alone; a valid one records the socket under the token's user
     * (replacing any earlier socket of that user), attaches the
     * inviteCollaborator and joinWhiteboard handlers, emits
     * `joinedApplication` and answers `{status: 'ok'}`.
     */
    method OnJoinApplication(s: SocketId, accessToken: Option<string>, verify: string -> Verified)
      returns (ack: Option<Status>)
      requires Valid()
      modifies this`applicationData, this`listeners, this`outbox, this`closed
      ensures Valid()
      ensures OnSocket("joinApplication") !in old(Attached(s)) ==>
        ack == None && applicationData == old(applicationData) && listeners == old(listeners) &&
        outbox == old(outbox) && closed == old(closed)
      ensures OnSocket("joinApplication") in old(Attached(s)) ==>
        var cb := WhiteboardController.CheckToken(accessToken, verify);
        if cb.err.Some? then
          ack == Some(Ko) && closed == old(closed) + {s} &&
          applicationData == old(applicationData) && listeners == old(listeners) && outbox == old(outbox)
        else
          && ack == Some(Ok) && closed == old(closed)
          && applicationData == old(applicationData)[cb.value.value := s]
          && listeners == old(listeners)[s := old(Attached(s)) + {OnSocket("inviteCollaborator"), OnSocket("joinWhiteboard")}]
          && outbox == Send(old(outbox), s, JoinedApplication)
    {
      if OnSocket("joinApplication") !in Attached(s) {
        return None;
      }
      var cb := WhiteboardController.CheckToken(accessToken, verify);
      if cb.err.Some? {
        closed := closed + {s};
        return Some(Ko);
      }
      applicationData := applicationData[cb.value.value := s];
      listeners := listeners[s := Attached(s) + {OnSocket("inviteCollaborator"), OnSocket("joinWhiteboard")}];
      outbox := Send(outbox, s, JoinedApplication);
      ack := Some(Ok);
    }

    /**
     * The application-level `disconnectApplication` handler: with a valid
     * token it deletes the token user's entry of the application map and
     * detaches the socket's joinWhiteboard handler; otherwise nothing.
     */
    method LeaveApplication(s: SocketId, accessToken: Option<string>, verify: string -> Verified)
      requires Valid()
      modifies this`applicationData, this`listeners
      ensures Valid()
      ensures var cb := WhiteboardController.CheckToken(accessToken, verify);
        if OnSocket("disconnectApplication") in old(Attached(s)) && cb.value.Some? then
          && applicationData == old(applicationData) - {cb.value.value}
          && listeners == old(listeners)[s := RemoveAll(old(Attached(s)), "joinWhiteboard")]
        else
          applicationData == old(applicationData) && listeners == old(listeners)
    {
      if OnSocket("disconnectApplication") !in Attached(s) {
        return;
      }
      var cb := WhiteboardController.CheckToken(accessToken, verify);
      if cb.value.Some? {
        applicationData := applicationData - {cb.value.value};
        listeners := listeners[s := RemoveAll(Attached(s), "joinWhiteboard")];
      }
    }

    /**
     * The `inviteCollaborator` handler: with a valid token the invite is
     * emitted, naming the inviter, to the socket the invited user joined the
     * application with, and to nobody when that user is not in the
     * application; a token that does not validate disconnects the inviter.
     */
    method OnInviteCollaborator(s: SocketId, accessToken: Option<string>, toInvite: Username, verify: string -> Verified)
      requires Valid()
      modifies this`outbox, this`closed
      ensures Valid()
      ensures var cb := WhiteboardController.CheckToken(accessToken, verify);
        if OnSocket("inviteCollaborator") !in old(Attached(s)) then
          outbox == old(outbox) && closed == old(closed)
        else if cb.err.Some? then
          outbox == old(outbox) && closed == old(closed) + {s}
        else
          && closed == old(closed)
          && outbox == if toInvite in applicationData
                       then Send(old(outbox), applicationData[toInvite], ReceiveCollaborationInvite(cb.value.value))
                       else old(outbox)
    {
      if OnSocket("inviteCollaborator") !in Attached(s) {
        return;
      }
      var cb := WhiteboardController.CheckToken(accessToken, verify);
      if cb.err.Some? {
        closed := closed + {s};
      } else if toInvite in applicationData {
        outbox := Send(outbox, applicationData[toInvite], ReceiveCollaborationInvite(cb.value.value));
      }
    }

    /**
     * The `joinWhiteboard` handler: a denial answers `{status: "ko"}` and
     * disconnects; an admission under a non-empty username joins the room and
     * answers `{status: 'ok'}`; an admission whose username is empty (falsy)
     * is only logged. Only an admitted user's socket ever enters a room.
     */
    method OnJoinWhiteboard(s: SocketId, accessToken: Option<string>, whiteboardId: Option<WhiteboardId>,
                            verify: string -> Verified, db: Db)
      returns (ack: Option<Status>)
      requires Valid()
      modifies this`users, this`connections, this`rooms, this`usersInWhiteboard, this`outbox, this`listeners, this`closed
      ensures Valid()
      ensures var cb := WhiteboardController.JoinWhiteboard(accessToken, whiteboardId, verify, db);
        && (ack == Some(Ok) <==> OnSocket("joinWhiteboard") in old(Attached(s)) && cb.value.Some? && cb.value.value != "")
        && (ack == Some(Ko) <==> OnSocket("joinWhiteboard") in old(Attached(s)) && cb.err.Some?)
        && closed == (if ack == Some(Ko) then old(closed) + {s} else old(closed))
        && (ack != Some(Ok) ==>
              && users == old(users) && connections == old(connections)
              && rooms == old(rooms) && usersInWhiteboard == old(usersInWhiteboard)
              && outbox == old(outbox) && listeners == old(listeners))
        && (ack == Some(Ok) ==>
              var room, username := whiteboardId.value, cb.value.value;
              && users == old(users)[username := room] && connections == old(connections)[username := s]
              && rooms == old(rooms)[room := old(Members(room)) + [s]]
              && usersInWhiteboard == old(usersInWhiteboard)[room := old(UsersIn(room)) + [username]]
              && listeners == old(listeners)[s := old(Attached(s)) + RoomListeners(room, username)]
              && outbox == Send(FanOut(old(outbox), old(Members(room)) + [s], s, UserConnected(username)),
                                s, AllConnectedUsers(old(UsersIn(room)) + [username])))
      ensures ack == Some(Ok) && UniqueUsernames(db.users) ==>
        Truthy(accessToken) && verify(accessToken.value).Decoded? &&
        IsMember(db, verify(accessToken.value).username, whiteboardId.value)
    {
      ack := None;
      if OnSocket("joinWhiteboard") in Attached(s) {
        var cb := WhiteboardController.JoinWhiteboard(accessToken, whiteboardId, verify, db);
        if cb.err.Some? {
          closed := closed + {s};
          ack := Some(Ko);
        } else if cb.value.value != "" {
          if UniqueUsernames(db.users) {
            AuthorizedMeansPermitted(NORMAL, accessToken, whiteboardId, verify, db);
          }
          ghost var members, names := Members(whiteboardId.value), UsersIn(whiteboardId.value);
          JoinWhiteboard(s, cb.value.value, whiteboardId.value);
          assert Members(whiteboardId.value) == members + [s];
          assert UsersIn(whiteboardId.value) == names + [cb.value.value];
          ack := Some(Ok);
        }
      }
    }

    /**
     * `joinWhiteboard`: appends the socket and the username to the room's
     * lists (creating them on the first join, with no guard against a second
     * join), tells every other socket of the room that the user connected,
     * sends the joiner the room's user list, which now ends with its own
     * name, and attaches the room's handlers.
     */
    method JoinWhiteboard(s: SocketId, username: Username, room: RoomId)
      requires Valid() && s in seen && s !in inert
      modifies this`users, this`connections, this`rooms, this`usersInWhiteboard, this`outbox, this`listeners
      ensures Valid()
      ensures users == old(users)[username := room] && connections == old(connections)[username := s]
      ensures rooms == old(rooms)[room := old(Members(room)) + [s]]
      ensures usersInWhiteboard == old(usersInWhiteboard)[room := old(UsersIn(room)) + [username]]
      ensures listeners == old(listeners)[s := old(Attached(s)) + RoomListeners(room, username)]
      ensures outbox == Send(FanOut(old(outbox), Members(room), s, UserConnected(username)), s, AllConnectedUsers(UsersIn(room)))
      ensures Outbox(outbox, s) == Outbox(old(outbox), s) + [AllConnectedUsers(old(UsersIn(room)) + [username])]
      ensures forall t :: t != s ==>
        Outbox(outbox, t) == Outbox(old(outbox), t) + Repeat(UserConnected(username), Count(old(Members(room)), t))
    {
      ghost var earlier, names, before := Members(room), UsersIn(room), outbox;
      EnterRoom(s, username, room);
      assert Members(room) == earlier + [s] && UsersIn(room) == names + [username] && room in rooms;
      ghost var rooms1, users1 := rooms, usersInWhiteboard;
      Broadcast(room, s, UserConnected(username));
      Emit(s, AllConnectedUsers(UsersIn(room)));
      assert outbox == Send(FanOut(before, earlier + [s], s, UserConnected(username)), s, AllConnectedUsers(names + [username]));
      AttachRoomHandlers(s, room, username);
      assert rooms == rooms1 && usersInWhiteboard == users1;
      JoinDelivery(before, earlier, s, UserConnected(username), AllConnectedUsers(names + [username]));
    }

    /** The bookkeeping half of a join: the user's room and socket, and the room's two lists. */
    method EnterRoom(s: SocketId, username: Username, room: RoomId)
      requires Valid() && s in seen && s !in inert
      modifies this`users, this`connections, this`rooms, this`usersInWhiteboard
      ensures Valid()
      ensures users == old(users)[username := room] && connections == old(connections)[username := s]
      ensures rooms == old(rooms)[room := old(Members(room)) + [s]]
      ensures usersInWhiteboard == old(usersInWhiteboard)[room := old(UsersIn(room)) + [username]]
    {
      users := users[username := room];
      connections := connections[username := s];
      rooms := rooms[room := Members(room) + [s]];
      usersInWhiteboard := usersInWhiteboard[room := UsersIn(room) + [username]];
    }

    /** `socket.emit(e)` to a socket that passed the connection gate. */
    method Emit(s: SocketId, e: Event)
      requires Valid() && s in seen && s !in inert
      modifies this`outbox
      ensures Valid()
      ensures outbox == Send(old(outbox), s, e)
    {
      outbox := Send(outbox, s, e);
    }

    /** The `socket.on(...)` calls of a join, on a socket that passed the connection gate, for a room with lists. */
    method AttachRoomHandlers(s: SocketId, room: RoomId, username: Username)
      requires Valid() && s in seen && s !in inert && room in rooms
      modifies this`listeners
      ensures Valid()
      ensures listeners == old(listeners)[s := old(Attached(s)) + RoomListeners(room, username)]
    {
      listeners := listeners[s := Attached(s) + RoomListeners(room, username)];
    }

    /**
     * The room's `drawStart` handler: after the stroke gate admits the
     * caller, the fresh stroke id is acknowledged to the drawer and the stroke
     * is broadcast with that same id; a denial sends nothing at all, not even
     * an acknowledgement.
     */
    method OnDrawStart(s: SocketId, room: RoomId, username: Username, line: Line, accessToken: Option<string>,
                       verify: string -> Verified, db: Db, freshId: LineId)
      returns (ack: Option<LineId>)
      requires Valid()
      modifies this`outbox
      ensures Valid()
      ensures var cb := WhiteboardController.LineStarted(line, accessToken, Some(room), verify, db, freshId);
        if InRoom("drawStart", room, username) in old(Attached(s)) && cb.err.None? then
          ack == Some(freshId) && outbox == FanOut(old(outbox), Members(room), s, DrawStartBC(line, freshId))
        else
          ack == None && outbox == old(outbox)
    {
      if InRoom("drawStart", room, username) !in Attached(s) {
        return None;
      }
      var cb := WhiteboardController.LineStarted(line, accessToken, Some(room), verify, db, freshId);
      if cb.err.Some? {
        return None;
      }
      ack := Some(cb.value.value);
      Broadcast(room, s, DrawStartBC(line, cb.value.value));
    }

    /** The room's `drawing` handler: the move is never checked and always broadcast. */
    method OnDrawing(s: SocketId, room: RoomId, username: Username, line: Line, lineId: LineId)
      requires Valid()
      modifies this`outbox
      ensures Valid()
      ensures InRoom("drawing", room, username) in old(Attached(s)) ==>
        outbox == FanOut(old(outbox), Members(room), s, DrawingBC(line, lineId))
      ensures InRoom("drawing", room, username) !in old(Attached(s)) ==> outbox == old(outbox)
    {
      if InRoom("drawing", room, username) !in Attached(s) {
        return;
      }
      var cb := WhiteboardController.LineMove(line, lineId, Some(room));
      if cb.err.None? {
        Broadcast(room, s, DrawingBC(line, lineId));
      }
    }

    /**
     * The room's `drawEnd` handler: the controller stores the stroke; the
     * stroke is broadcast exactly when the controller reports success, which
     * it does after every admission, stored or not.
     */
    method OnDrawEnd(s: SocketId, room: RoomId, username: Username, line: Line, lineId: LineId,
                     accessToken: Option<string>, verify: string -> Verified, store: Store, writeFails: bool)
      requires Valid()
      modifies this`outbox, store
      ensures Valid()
      ensures store.users == old(store.users) && store.notifications == old(store.notifications)
      ensures InRoom("drawEnd", room, username) !in old(Attached(s)) ==>
        outbox == old(outbox) && store.whiteboards == old(store.whiteboards)
      ensures var auth := AuthorizeLineEnd(accessToken, lineId, Some(room), verify, old(store.State()));
        InRoom("drawEnd", room, username) in old(Attached(s)) ==>
          && (auth.Denied? ==> outbox == old(outbox) && store.whiteboards == old(store.whiteboards))
          && (auth.Authorized? ==>
                && outbox == FanOut(old(outbox), Members(room), s, DrawEndBC(line, lineId))
                && store.whiteboards ==
                     if !writeFails && room in old(store.whiteboards)
                     then old(store.whiteboards)[room := WithTrait(old(store.whiteboards)[room], lineId, line)]
                     else old(store.whiteboards))
    {
      if InRoom("drawEnd", room, username) !in Attached(s) {
        return;
      }
      var c := WhiteboardController.LineEnd(store, line, accessToken, lineId, Some(room), verify, writeFails);
      if c == WhiteboardController.Called(None) {
        Broadcast(room, s, DrawEndBC(line, lineId));
      }
    }

    /**
     * The room's `lineDelete` handler: the controller removes the stroke;
     * the deletion is broadcast exactly when the controller calls back
     * success.
     */
    method OnLineDelete(s: SocketId, room: RoomId, username: Username, lineId: LineId,
                        accessToken: Option<string>, verify: string -> Verified, store: Store, writeFails: bool)
      requires Valid()
      modifies this`outbox, store
      ensures Valid()
      ensures store.users == old(store.users) && store.notifications == old(store.notifications)
      ensures InRoom("lineDelete", room, username) !in old(Attached(s)) ==>
        outbox == old(outbox) && store.whiteboards == old(store.whiteboards)
      ensures var auth := AuthorizeLineDelete(accessToken, lineId, Some(room), verify, old(store.State()));
        InRoom("lineDelete", room, username) in old(Attached(s)) ==>
          && (auth.Denied? || writeFails ==> outbox == old(outbox))
          && (auth.Denied? ==> store.whiteboards == old(store.whiteboards))
          && (auth.Authorized? && !writeFails ==> outbox == FanOut(old(outbox), Members(room), s, LineDeleteBC(lineId)))
          && (auth.Authorized? ==>
                store.whiteboards ==
                  if !writeFails && room in old(store.whiteboards)
                  then old(store.whiteboards)[room := WithoutTrait(old(store.whiteboards)[room], lineId)]
                  else old(store.whiteboards))
    {
      if InRoom("lineDelete", room, username) !in Attached(s) {
        return;
      }
      var c := WhiteboardController.LineDelete(store, lineId, accessToken, Some(room), verify, writeFails);
      if c == WhiteboardController.Called(None) {
        Broadcast(room, s, LineDeleteBC(lineId));
      }
    }

    /** One run of `leftListener` for the socket, as `LeaveStep` states it. */
    method LeaveRoom(s: SocketId, h: Hook)
      requires Valid() && s in seen && h.room in rooms
      modifies this`rooms, this`usersInWhiteboard, this`outbox, this`listeners
      ensures Valid()
      ensures State() == LeaveStep(old(State()), s, h)
    {
      ghost var g := State();
      LeaveLists(s, h);
      ghost var rooms1, users1 := rooms, usersInWhiteboard;
      Broadcast(h.room, s, UserDisconnected(h.username));
      DetachRoomHandlers(s, h);
      assert rooms == rooms1 && usersInWhiteboard == users1;
    }

    /** The bookkeeping half of a leave: the room's two lists lose the socket and the user. */
    method LeaveLists(s: SocketId, h: Hook)
      requires Valid() && h.room in rooms
      modifies this`rooms, this`usersInWhiteboard
      ensures Valid()
      ensures rooms == old(rooms)[h.room := Without(old(Members(h.room)), s)]
      ensures usersInWhiteboard == old(usersInWhiteboard)[h.room := Without(old(UsersIn(h.room)), h.username)]
    {
      forall t | t in Without(Members(h.room), s) ensures t in Members(h.room) {
        WithoutMembership(Members(h.room), s, t);
      }
      rooms := rooms[h.room := Without(Members(h.room), s)];
      usersInWhiteboard := usersInWhiteboard[h.room := Without(UsersIn(h.room), h.username)];
    }

    /** The `removeAllListeners` and `off` calls of a leave. */
    method DetachRoomHandlers(s: SocketId, h: Hook)
      requires Valid() && s in seen
      modifies this`listeners
      ensures Valid()
      ensures listeners == old(listeners)[s := AfterLeave(old(Attached(s)), h.room, h.username)]
    {
      listeners := listeners[s := AfterLeave(Attached(s), h.room, h.username)];
    }

    /**
     * The leave hooks of one event, in the order they were attached. The
     * emitter runs the listener list it held when the event fired, so a hook
     * that an earlier hook detached still runs.
     */
    method RunLeaveHooks(s: SocketId, order: seq<Hook>)
      requires Valid() && (order != [] ==> s in seen)
      requires forall h :: h in order ==> h.room in rooms
      modifies this`rooms, this`usersInWhiteboard, this`outbox, this`listeners
      ensures Valid()
      ensures State() == LeaveAll(old(State()), s, order)
    {
      var i := 0;
      while i < |order|
        invariant 0 <= i <= |order|
        invariant Valid()
        invariant rooms.Keys == old(rooms.Keys)
        invariant State() == LeaveAll(old(State()), s, order[..i])
      {
        assert order[..i + 1][..i] == order[..i];
        LeaveRoom(s, order[i]);
        i := i + 1;
      }
      assert order[..|order|] == order;
    }

    /**
     * The hooks of `event` attached to the socket, each a room it joined and
     * the name it joined under; they exist only for rooms with lists.
     */
    lemma HooksHaveRooms(s: SocketId, event: string, order: seq<Hook>)
      requires Valid()
      requires forall h :: h in order <==> InRoom(event, h.room, h.username) in Attached(s)
      ensures forall h :: h in order ==> h.room in rooms
      ensures order != [] ==> s in seen
    {
      forall h | h in order ensures h.room in rooms {
        assert InRoom(event, h.room, h.username) in listeners[s];
      }
      if order != [] {
        assert InRoom(event, order[0].room, order[0].username) in Attached(s);
      }
    }

    /**
     * The `leftWhiteboard` event, whose listeners are the leave hooks of the
     * rooms the socket joined, listed in `order` as they were attached (a
     * room joined twice under one name lists its hook twice). Every hooked
     * room is left, not only the first.
     */
    method OnLeftWhiteboard(s: SocketId, order: seq<Hook>)
      requires Valid()
      requires forall h :: h in order <==> InRoom("leftWhiteboard", h.room, h.username) in Attached(s)
      modifies this`rooms, this`usersInWhiteboard, this`outbox, this`listeners
      ensures Valid()
      ensures State() == LeaveAll(old(State()), s, order)
      ensures forall room, u :: InRoom("leftWhiteboard", room, u) in old(Attached(s)) ==>
        s !in Members(room) && u !in UsersIn(room)
      ensures Attached(s) <= old(Attached(s))
      ensures forall l :: l in Attached(s) ==> !(l.InRoom? && l.event == "leftWhiteboard")
    {
      HooksHaveRooms(s, "leftWhiteboard", order);
      ghost var start := State();
      RunLeaveHooks(s, order);
      forall room, u | InRoom("leftWhiteboard", room, u) in old(Attached(s))
        ensures s !in Members(room) && u !in UsersIn(room)
      {
        assert Hook(room, u) in order && room in RoomsOf(order);
        LeaveAllRemovesSocket(start, s, order, room);
        LeaveAllRemovesUser(start, s, order, room, u);
      }
      forall l | l in Attached(s) ensures l in old(Attached(s)) && !(l.InRoom? && l.event == "leftWhiteboard") {
        LeaveAllListener(start, s, order, l);
      }
    }

    /**
     * The `disconnectApplication` event: the application-level handler and
     * the leave hooks of every joined room, in the order they were attached.
     * The handler's update waits for the token check's callback, so in the
     * source it lands after the hooks; it is applied first here, which ends
     * in the same state because it touches only `applicationData` and the
     * `joinWhiteboard` handlers, and the hooks neither read nor change those.
     */
    method OnDisconnectApplication(s: SocketId, accessToken: Option<string>, verify: string -> Verified, order: seq<Hook>)
      requires Valid()
      requires forall h :: h in order <==> InRoom("disconnectApplication", h.room, h.username) in Attached(s)
      modifies this`applicationData, this`rooms, this`usersInWhiteboard, this`outbox, this`listeners
      ensures Valid()
      ensures var cb := WhiteboardController.CheckToken(accessToken, verify);
        var app := OnSocket("disconnectApplication") in old(Attached(s)) && cb.value.Some?;
        && applicationData == (if app then old(applicationData) - {cb.value.value} else old(applicationData))
        && State() == LeaveAll(old(State()).(listeners :=
                                 if app then old(listeners)[s := RemoveAll(old(Attached(s)), "joinWhiteboard")]
                                 else old(listeners)), s, order)
      ensures forall room, u :: InRoom("disconnectApplication", room, u) in old(Attached(s)) ==>
        s !in Members(room) && u !in UsersIn(room)
    {
      HooksHaveRooms(s, "disconnectApplication", order);
      ghost var before := State();
      LeaveApplication(s, accessToken, verify);
      ghost var start := State();
      assert start == before.(listeners := listeners);
      RunLeaveHooks(s, order);
      forall room, u | InRoom("disconnectApplication", room, u) in old(Attached(s))
        ensures s !in Members(room) && u !in UsersIn(room)
      {
        assert Hook(room, u) in order && room in RoomsOf(order);
        LeaveAllRemovesSocket(start, s, order, room);
        LeaveAllRemovesUser(start, s, order, room, u);
      }
    }

    /** The connection-level `disconnect` handler: detaches every handler of the socket. */
    method DetachAll(s: SocketId)
      requires Valid()
      modifies this`listeners
      ensures Valid()
      ensures OnSocket("disconnect") in old(Attached(s)) ==> listeners == old(listeners)[s := {}]
      ensures OnSocket("disconnect") !in old(Attached(s)) ==> listeners == old(listeners)
    {
      if OnSocket("disconnect") in Attached(s) {
        listeners := listeners[s := {}];
      }
    }

    /**
     * The `disconnect` event, fired when the transport closes and when the
     * server disconnects the socket: the connection-level handler, attached
     * first, detaches everything, and the leave hooks of every joined room
     * run anyway, in the order they were attached. Afterwards the socket is
     * in none of those rooms and holds no handler.
     */
    method OnDisconnect(s: SocketId, order: seq<Hook>)
      requires Valid()
      requires forall h :: h in order <==> InRoom("disconnect", h.room, h.username) in Attached(s)
      modifies this`rooms, this`usersInWhiteboard, this`outbox, this`listeners
      ensures Valid()
      ensures State() == LeaveAll(old(State()).(listeners :=
                                    if OnSocket("disconnect") in old(Attached(s)) then old(listeners)[s := {}]
                                    else old(listeners)), s, order)
      ensures forall room, u :: InRoom("disconnect", room, u) in old(Attached(s)) ==>
        s !in Members(room) && u !in UsersIn(room)
      ensures OnSocket("disconnect") in old(Attached(s)) ==> Attached(s) == {}
    {
      HooksHaveRooms(s, "disconnect", order);
      DetachAll(s);
      ghost var start := State();
      RunLeaveHooks(s, order);
      forall room, u | InRoom("disconnect", room, u) in old(Attached(s))
        ensures s !in Members(room) && u !in UsersIn(room)
      {
        assert Hook(room, u) in order && room in RoomsOf(order);
        LeaveAllRemovesSocket(start, s, order, room);
        LeaveAllRemovesUser(start, s, order, room, u);
      }
      if OnSocket("disconnect") in old(Attached(s)) {
        forall l | l in Attached(s) ensures l in AttachedOf(start.listeners, s) {
          LeaveAllListener(start, s, order, l);
        }
      }
    }
  }
}
