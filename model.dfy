/**
 * The document store behind the backend (users, whiteboards with their
 * strokes, notifications), modelled as three collections held by one
 * object. Queries are functions of a snapshot `Db`; the operations that
 * change documents in place are methods of `Store`.
 *
 * What the database itself decides (fresh ids, whether a write throws,
 * which first names a regular expression matches) arrives as a parameter.
 */
module Model {
  import opened Common
  import ArrayUtil

  datatype User = User(id: UserId, username: Username, firstName: string, lastName: string)

  /** `users` holds the ids of the members; `traits` maps stroke ids to strokes. */
  datatype Whiteboard = Whiteboard(name: string, ownerId: UserId, users: seq<UserId>, traits: map<LineId, Line>)

  datatype Notification = Notification(body: string, kind: string, visualized: bool, user: UserId)

  datatype Db = Db(users: seq<User>, whiteboards: map<WhiteboardId, Whiteboard>, notifications: map<NotificationId, Notification>)

  /** How a storage call that is not wrapped in try/catch settles. */
  datatype Settled = Resolved | Rejected

  /** What a permission query resolves to: a truthy value, a falsy one, or an exception. */
  datatype CheckOutcome = Granted | Refused | Throws

  datatype CreateOutcome =
    | Created(id: WhiteboardId, whiteboard: Whiteboard)
    | NoSuchUser      // the user lookup found nothing: nothing is created, undefined is returned
    | SaveFailed      // the insert threw (a duplicate id) and the error object is returned

  /** The search parameters of the user search: a first-name pattern, a first name to exclude, a whiteboard. */
  datatype Filters = Filters(username: string, excludes: string, whiteboardId: WhiteboardId)

  datatype SearchEntry = SearchEntry(id: UserId, username: Username, firstName: string, lastName: string, alreadyIn: bool)

  datatype SearchOutcome =
    | Found(users: seq<SearchEntry>)
    | Unfiltered      // no filters: the unfiltered query branch, not modelled further
    | SearchRejected  // the whiteboard lookup found nothing and reading `.users` threw

  /** The maximum number of users one search returns. */
  const LIMIT: nat := 20

  // ---------------------------------------------------------------------------
  // Users
  // ---------------------------------------------------------------------------

  /** Index of the first user document with this username: what `findOne` returns. */
  function FindUserIndex(users: seq<User>, username: Username): (r: Option<nat>)
    ensures r.Some? ==> r.value < |users| && users[r.value].username == username
    ensures r.Some? ==> forall k :: 0 <= k < r.value ==> users[k].username != username
    ensures r.None? <==> forall k :: 0 <= k < |users| ==> users[k].username != username
  {
    if |users| == 0 then None
    else if users[0].username == username then Some(0)
    else match FindUserIndex(users[1..], username)
      case None => None
      case Some(i) => Some(i + 1)
  }

  function FindOneUser(users: seq<User>, username: Username): (r: Option<User>)
    ensures r.Some? <==> exists k :: 0 <= k < |users| && users[k].username == username
    ensures r.Some? ==> exists k :: 0 <= k < |users| && users[k] == r.value && r.value.username == username &&
                                   forall j :: 0 <= j < k ==> users[j].username != username
  {
    match FindUserIndex(users, username)
    case None => None
    case Some(i) => Some(users[i])
  }

  ghost predicate UniqueUsernames(users: seq<User>)
  {
    forall i, j :: 0 <= i < j < |users| ==> users[i].username != users[j].username
  }

  ghost predicate UniqueIds(users: seq<User>)
  {
    forall i, j :: 0 <= i < j < |users| ==> users[i].id != users[j].id
  }

  /** With distinct usernames, the user that `findOne` picks is the only one with that name. */
  lemma FindOneUserIsTheUser(users: seq<User>, username: Username, k: nat)
    requires UniqueUsernames(users)
    requires k < |users| && users[k].username == username
    ensures FindOneUser(users, username) == Some(users[k])
  {
    var r := FindUserIndex(users, username);
    assert r == Some(k);
  }

  /** The user list after `findByIdAndUpdate` replaced the names of the user at index `i`. */
  function Renamed(users: seq<User>, i: nat, newUsername: Username, newFirstName: string, newLastName: string): seq<User>
    requires i < |users|
  {
    users[i := User(users[i].id, newUsername, newFirstName, newLastName)]
  }

  /**
   * The guard of `updateUserInfo` (the new username is unused, or is the
   * user's own) is what keeps usernames distinct; ids are never touched.
   */
  lemma RenameKeepsUsersDistinct(users: seq<User>, i: nat, newUsername: Username, newFirstName: string, newLastName: string)
    requires i < |users|
    requires FindUserIndex(users, newUsername).None? || newUsername == users[i].username
    requires UniqueUsernames(users) && UniqueIds(users)
    ensures UniqueUsernames(Renamed(users, i, newUsername, newFirstName, newLastName))
    ensures UniqueIds(Renamed(users, i, newUsername, newFirstName, newLastName))
  {
    var r := Renamed(users, i, newUsername, newFirstName, newLastName);
    forall a, b | 0 <= a < b < |r|
      ensures r[a].username != r[b].username
    {
      if a == i || b == i {
        var other := if a == i then b else a;
        assert r[other] == users[other];
        if newUsername != users[i].username {
          assert users[other].username != newUsername;
        }
      }
    }
  }

  // ---------------------------------------------------------------------------
  // Permission queries
  // ---------------------------------------------------------------------------

  /**
   * `validateUserToWhiteboard`: an unknown user yields undefined (falsy);
   * a known user on an unknown whiteboard makes `whiteboard.users` throw;
   * otherwise the answer is whether the user's id is in the member list.
   */
  function ValidateUserToWhiteboard(db: Db, username: Username, whiteboardId: WhiteboardId): (r: CheckOutcome)
    ensures r == Granted ==> IsMember(db, username, whiteboardId)
    ensures r == Throws <==> UserExists(db, username) && whiteboardId !in db.whiteboards
    ensures !UserExists(db, username) ==> r == Refused
  {
    match FindOneUser(db.users, username)
    case None => Refused
    case Some(user) =>
      if whiteboardId !in db.whiteboards then Throws
      else if user.id in db.whiteboards[whiteboardId].users then Granted
      else Refused
  }

  /**
   * `validateOwnerToWhiteboard`: when both the user and the whiteboard are
   * found, whether the user's id is the owner id; otherwise undefined (falsy).
   */
  function ValidateOwnerToWhiteboard(db: Db, username: Username, whiteboardId: WhiteboardId): (r: CheckOutcome)
    ensures r != Throws
    ensures r == Granted ==> IsOwner(db, username, whiteboardId)
    ensures !UserExists(db, username) || whiteboardId !in db.whiteboards ==> r == Refused
  {
    match FindOneUser(db.users, username)
    case None => Refused
    case Some(user) =>
      if whiteboardId !in db.whiteboards then Refused
      else if user.id == db.whiteboards[whiteboardId].ownerId then Granted
      else Refused
  }

  /** Membership over the stored collections: some user with this name is in the whiteboard's member list. */
  ghost predicate IsMember(db: Db, username: Username, whiteboardId: WhiteboardId)
  {
    whiteboardId in db.whiteboards &&
    exists k :: 0 <= k < |db.users| && db.users[k].username == username && db.users[k].id in db.whiteboards[whiteboardId].users
  }

  /** Ownership over the stored collections: some user with this name owns the whiteboard. */
  ghost predicate IsOwner(db: Db, username: Username, whiteboardId: WhiteboardId)
  {
    whiteboardId in db.whiteboards &&
    exists k :: 0 <= k < |db.users| && db.users[k].username == username && db.users[k].id == db.whiteboards[whiteboardId].ownerId
  }

  ghost predicate UserExists(db: Db, username: Username)
  {
    exists k :: 0 <= k < |db.users| && db.users[k].username == username
  }

  /**
   * The member check grants exactly the members, and throws exactly for a
   * known user asking about an unknown whiteboard (usernames being distinct).
   */
  lemma ValidateUserIsMembership(db: Db, username: Username, whiteboardId: WhiteboardId)
    requires UniqueUsernames(db.users)
    ensures ValidateUserToWhiteboard(db, username, whiteboardId) == Granted <==> IsMember(db, username, whiteboardId)
    ensures ValidateUserToWhiteboard(db, username, whiteboardId) == Throws <==> UserExists(db, username) && whiteboardId !in db.whiteboards
  {
    if IsMember(db, username, whiteboardId) {
      var k :| 0 <= k < |db.users| && db.users[k].username == username && db.users[k].id in db.whiteboards[whiteboardId].users;
      FindOneUserIsTheUser(db.users, username, k);
    }
    if UserExists(db, username) {
      var k :| 0 <= k < |db.users| && db.users[k].username == username;
      FindOneUserIsTheUser(db.users, username, k);
    }
  }

  /** The owner check grants exactly the owner and never throws. */
  lemma ValidateOwnerIsOwnership(db: Db, username: Username, whiteboardId: WhiteboardId)
    requires UniqueUsernames(db.users)
    ensures ValidateOwnerToWhiteboard(db, username, whiteboardId) == Granted <==> IsOwner(db, username, whiteboardId)
  {
    if IsOwner(db, username, whiteboardId) {
      var k :| 0 <= k < |db.users| && db.users[k].username == username && db.users[k].id == db.whiteboards[whiteboardId].ownerId;
      FindOneUserIsTheUser(db.users, username, k);
    }
  }

  // ---------------------------------------------------------------------------
  // Whiteboard documents
  // ---------------------------------------------------------------------------

  /** The document `createWhiteboard` saves: the creator owns it and is its only member; no strokes. */
  function NewWhiteboard(name: string, owner: User): (wb: Whiteboard)
    ensures wb.ownerId == owner.id && wb.users == [owner.id] && wb.traits == map[] && wb.name == name
  {
    Whiteboard(name, owner.id, [owner.id], map[])
  }

  /** The `$push` of `inviteUserToWhiteboard`, guarded by the `includes` test. */
  function PushIfAbsent(members: seq<UserId>, id: UserId): (r: seq<UserId>)
    ensures id in r
    ensures members <= r && |r| <= |members| + 1
    ensures forall x :: x in r <==> x in members || x == id
    ensures id in members ==> r == members
    ensures id !in members ==> r == members + [id]
  {
    if id in members then members else members + [id]
  }

  ghost predicate NoDuplicates(s: seq<UserId>)
  {
    forall i, j :: 0 <= i < j < |s| ==> s[i] != s[j]
  }

  /**
   * Push-if-absent is what makes inviting safe to repeat: the id is a member
   * afterwards, a second invite changes nothing, the earlier members keep
   * their places, and a list without duplicates stays without duplicates.
   */
  lemma PushIfAbsentProperties(members: seq<UserId>, id: UserId)
    ensures PushIfAbsent(PushIfAbsent(members, id), id) == PushIfAbsent(members, id)
    ensures NoDuplicates(members) ==> NoDuplicates(PushIfAbsent(members, id))
  {
  }

  /** The whiteboard with `$set traits.<lineId>` applied. */
  function WithTrait(wb: Whiteboard, lineId: LineId, line: Line): (r: Whiteboard)
    ensures lineId in r.traits && r.traits[lineId] == line
    ensures forall k :: k != lineId ==> (k in r.traits <==> k in wb.traits)
    ensures forall k :: k != lineId && k in wb.traits ==> r.traits[k] == wb.traits[k]
    ensures r.name == wb.name && r.ownerId == wb.ownerId && r.users == wb.users
  {
    wb.(traits := wb.traits[lineId := line])
  }

  /** The whiteboard with `$unset traits.<lineId>` applied. */
  function WithoutTrait(wb: Whiteboard, lineId: LineId): (r: Whiteboard)
    ensures lineId !in r.traits
    ensures forall k :: k != lineId ==> (k in r.traits <==> k in wb.traits)
    ensures forall k :: k != lineId && k in wb.traits ==> r.traits[k] == wb.traits[k]
    ensures r.name == wb.name && r.ownerId == wb.ownerId && r.users == wb.users
  {
    wb.(traits := wb.traits - {lineId})
  }

  /**
   * A stroke saved and then deleted leaves no entry under its id, and every
   * other stroke is as it was before the save; deleting an absent stroke
   * changes nothing.
   */
  lemma SaveThenDeleteStroke(wb: Whiteboard, lineId: LineId, line: Line)
    ensures lineId !in WithoutTrait(WithTrait(wb, lineId, line), lineId).traits
    ensures WithoutTrait(WithTrait(wb, lineId, line), lineId) == WithoutTrait(wb, lineId)
    ensures lineId !in wb.traits ==> WithoutTrait(wb, lineId) == wb
  {
    assert WithTrait(wb, lineId, line).traits - {lineId} == wb.traits - {lineId};
  }

  // ---------------------------------------------------------------------------
  // Notifications
  // ---------------------------------------------------------------------------

  /** The ids of the user's notifications that have not been seen. */
  function UnreadIds(notifications: map<NotificationId, Notification>, owner: UserId): set<NotificationId>
  {
    set id | id in notifications && !notifications[id].visualized && notifications[id].user == owner
  }

  /** The number `Notification.count({visualized: false, user})` reports. */
  function UnreadCount(notifications: map<NotificationId, Notification>, owner: UserId): nat
  {
    |UnreadIds(notifications, owner)|
  }

  /** A notification saved with `visualized = false` adds one to its owner's unread count only. */
  lemma AddingUnreadCountsOnce(notifications: map<NotificationId, Notification>, id: NotificationId, n: Notification, owner: UserId)
    requires id !in notifications && !n.visualized
    ensures UnreadCount(notifications[id := n], owner) == UnreadCount(notifications, owner) + (if n.user == owner then 1 else 0)
  {
    var after := UnreadIds(notifications[id := n], owner);
    var before := UnreadIds(notifications, owner);
    if n.user == owner {
      assert after == before + {id};
    } else {
      assert after == before;
    }
  }

  /**
   * Marking a notification as seen takes one off its owner's unread count
   * when it was unread, and changes no other count.
   */
  lemma MarkingReadCountsOnce(notifications: map<NotificationId, Notification>, id: NotificationId, owner: UserId)
    requires id in notifications
    ensures var n := notifications[id];
      UnreadCount(notifications[id := n.(visualized := true)], owner)
        == UnreadCount(notifications, owner) - (if !n.visualized && n.user == owner then 1 else 0)
  {
    var n := notifications[id];
    var after := UnreadIds(notifications[id := n.(visualized := true)], owner);
    var before := UnreadIds(notifications, owner);
    if !n.visualized && n.user == owner {
      assert before == after + {id};
    } else {
      assert after == before;
    }
  }

  /**
   * `getNotificationOfUser`: the user's notifications. For an unknown user
   * reading `user._id` throws inside the try block, so undefined comes back.
   */
  function GetNotificationOfUser(db: Db, username: Username): (r: Option<map<NotificationId, Notification>>)
    ensures r.Some? <==> FindOneUser(db.users, username).Some?
    ensures r.Some? ==> forall id :: id in r.value <==> id in db.notifications && db.notifications[id].user == FindOneUser(db.users, username).value.id
  {
    match FindOneUser(db.users, username)
    case None => None
    case Some(user) => Some(map id | id in db.notifications && db.notifications[id].user == user.id :: db.notifications[id])
  }

  /**
   * `getUnreadNotificationNumber`: the unread count of the user; for an
   * unknown user `user._id` throws outside any try block (None).
   */
  function GetUnreadNotificationNumber(db: Db, username: Username): (r: Option<nat>)
    ensures r.Some? <==> FindOneUser(db.users, username).Some?
    ensures r.Some? ==> r.value == |set id | id in db.notifications && !db.notifications[id].visualized && db.notifications[id].user == FindOneUser(db.users, username).value.id|
  {
    match FindOneUser(db.users, username)
    case None => None
    case Some(user) =>
      assert UnreadIds(db.notifications, user.id) == set id | id in db.notifications && !db.notifications[id].visualized && db.notifications[id].user == user.id;
      Some(UnreadCount(db.notifications, user.id))
  }

  // ---------------------------------------------------------------------------
  // The store
  // ---------------------------------------------------------------------------

  /** First matches of the user query, in query order: the pattern holds and the first name is not the excluded one. */
  function Matching(users: seq<User>, matches: string -> bool, excludes: string): (r: seq<User>)
    ensures |r| <= |users|
    ensures forall u :: u in r <==> u in users && matches(u.firstName) && u.firstName != excludes
  {
    if users == [] then []
    else
      var rest := Matching(users[1..], matches, excludes);
      if matches(users[0].firstName) && users[0].firstName != excludes then [users[0]] + rest else rest
  }

  /**
   * The filter keeps the store's order: filtering a concatenation is
   * concatenating the filtered parts, so a user that comes before another in
   * the collection comes before it in the result.
   */
  lemma {:induction false} MatchingConcat(a: seq<User>, b: seq<User>, matches: string -> bool, excludes: string)
    ensures Matching(a + b, matches, excludes) == Matching(a, matches, excludes) + Matching(b, matches, excludes)
    decreases |a|
  {
    if a == [] {
      assert a + b == b;
    } else {
      assert a + b != [] && (a + b)[0] == a[0] && (a + b)[1..] == a[1..] + b;
      MatchingConcat(a[1..], b, matches, excludes);
      var rest, tail := Matching(a[1..], matches, excludes), Matching(b, matches, excludes);
      assert [a[0]] + (rest + tail) == [a[0]] + rest + tail;
    }
  }

  /** One user passes the filter exactly when its first name matches and is not the excluded one. */
  lemma MatchingSingle(u: User, matches: string -> bool, excludes: string)
    ensures Matching([u], matches, excludes) == if matches(u.firstName) && u.firstName != excludes then [u] else []
  {
    assert [u][1..] == [];
  }

  function EntryOf(user: User, alreadyIn: bool): SearchEntry
  {
    SearchEntry(user.id, user.username, user.firstName, user.lastName, alreadyIn)
  }

  class Store {
    var users: seq<User>
    var whiteboards: map<WhiteboardId, Whiteboard>
    var notifications: map<NotificationId, Notification>

    /** The collections as one value, for the queries. */
    function State(): Db
      reads this
    {
      Db(users, whiteboards, notifications)
    }

    constructor ()
      ensures users == [] && whiteboards == map[] && notifications == map[]
    {
      users := [];
      whiteboards := map[];
      notifications := map[];
    }

    /**
     * `updateUserInfo`: renames the user and replaces the names when the
     * user exists and the new username is free or is the user's own;
     * otherwise returns null and changes nothing.
     */
    method UpdateUserInfo(username: Username, newUsername: Username, newFirstName: string, newLastName: string)
      returns (r: Option<User>)
      modifies this
      ensures whiteboards == old(whiteboards) && notifications == old(notifications)
      ensures var i := FindUserIndex(old(users), username);
        var applies := i.Some? && (FindUserIndex(old(users), newUsername).None? || newUsername == username);
        if applies then
          users == Renamed(old(users), i.value, newUsername, newFirstName, newLastName) &&
          r == Some(User(old(users)[i.value].id, newUsername, newFirstName, newLastName))
        else
          users == old(users) && r == None
      ensures UniqueUsernames(old(users)) && UniqueIds(old(users)) ==> UniqueUsernames(users) && UniqueIds(users)
    {
      var i := FindUserIndex(users, username);
      var existing := FindUserIndex(users, newUsername);
      if i.Some? && (existing.None? || newUsername == username) {
        ghost var before := users;
        var updated := User(users[i.value].id, newUsername, newFirstName, newLastName);
        users := users[i.value := updated];
        r := Some(updated);
        if UniqueUsernames(before) && UniqueIds(before) {
          RenameKeepsUsersDistinct(before, i.value, newUsername, newFirstName, newLastName);
        }
      } else {
        r := None;
      }
    }

    /**
     * `createWhiteboard`: a known user becomes owner and sole member of a new
     * whiteboard without strokes, stored under the fresh id the database
     * chose; an unknown user creates nothing.
     */
    method CreateWhiteboard(name: string, username: Username, freshId: WhiteboardId) returns (r: CreateOutcome)
      modifies this
      ensures users == old(users) && notifications == old(notifications)
      ensures FindOneUser(users, username).None? ==> r == NoSuchUser && whiteboards == old(whiteboards)
      ensures FindOneUser(users, username).Some? && freshId in old(whiteboards) ==> r == SaveFailed && whiteboards == old(whiteboards)
      ensures FindOneUser(users, username).Some? && freshId !in old(whiteboards) ==>
        var owner := FindOneUser(users, username).value;
        && r == Created(freshId, Whiteboard(name, owner.id, [owner.id], map[]))
        && whiteboards == old(whiteboards)[freshId := Whiteboard(name, owner.id, [owner.id], map[])]
    {
      var user := FindOneUser(users, username);
      if user.None? {
        r := NoSuchUser;
      } else if freshId in whiteboards {
        r := SaveFailed;
      } else {
        var wb := NewWhiteboard(name, user.value);
        whiteboards := whiteboards[freshId := wb];
        r := Created(freshId, wb);
      }
    }

    /**
     * `insertLine`: an upsert of one stroke. A failed write is caught and
     * logged, so the caller cannot tell it from a success; an unknown
     * whiteboard matches no document and nothing changes.
     */
    method InsertLine(whiteboardId: WhiteboardId, lineId: LineId, line: Line, writeFails: bool)
      modifies this
      ensures users == old(users) && notifications == old(notifications)
      ensures whiteboards ==
        if !writeFails && whiteboardId in old(whiteboards)
        then old(whiteboards)[whiteboardId := WithTrait(old(whiteboards)[whiteboardId], lineId, line)]
        else old(whiteboards)
      ensures !writeFails && whiteboardId in old(whiteboards) ==>
        whiteboardId in whiteboards && whiteboards[whiteboardId].traits[lineId] == line &&
        forall k :: k != lineId ==> (k in whiteboards[whiteboardId].traits <==> k in old(whiteboards)[whiteboardId].traits)
    {
      if !writeFails && whiteboardId in whiteboards {
        whiteboards := whiteboards[whiteboardId := WithTrait(whiteboards[whiteboardId], lineId, line)];
      }
    }

    /**
     * `deleteLine`: removes one stroke. It has no try block, so a failed
     * write rejects the returned promise; removing an absent stroke, or
     * from an unknown whiteboard, changes nothing.
     */
    method DeleteLine(whiteboardId: WhiteboardId, lineId: LineId, writeFails: bool) returns (s: Settled)
      modifies this
      ensures users == old(users) && notifications == old(notifications)
      ensures s == (if writeFails then Rejected else Resolved)
      ensures whiteboards ==
        if !writeFails && whiteboardId in old(whiteboards)
        then old(whiteboards)[whiteboardId := WithoutTrait(old(whiteboards)[whiteboardId], lineId)]
        else old(whiteboards)
    {
      if writeFails {
        return Rejected;
      }
      if whiteboardId in whiteboards {
        whiteboards := whiteboards[whiteboardId := WithoutTrait(whiteboards[whiteboardId], lineId)];
      }
      s := Resolved;
    }

    /**
     * `inviteUserToWhiteboard`: adds the user's id to the member list unless
     * it is already there. An unknown user or whiteboard makes the property
     * access throw, which rejects the promise. A failed `$push` rejects it
     * too; a user already in the list needs no write, so nothing can fail.
     */
    method InviteUserToWhiteboard(username: Username, whiteboardId: WhiteboardId, writeFails: bool) returns (s: Settled)
      modifies this
      ensures users == old(users) && notifications == old(notifications)
      ensures s == Rejected <==> FindOneUser(users, username).None? || whiteboardId !in old(whiteboards)
                                 || (writeFails && FindOneUser(users, username).value.id !in old(whiteboards)[whiteboardId].users)
      ensures s == Rejected ==> whiteboards == old(whiteboards)
      ensures s == Resolved ==>
        var wb := old(whiteboards)[whiteboardId];
        whiteboards == old(whiteboards)[whiteboardId := wb.(users := PushIfAbsent(wb.users, FindOneUser(users, username).value.id))]
    {
      var user := FindOneUser(users, username);
      if user.None? || whiteboardId !in whiteboards {
        return Rejected;
      }
      var wb := whiteboards[whiteboardId];
      if user.value.id !in wb.users {
        if writeFails {
          return Rejected;
        }
        whiteboards := whiteboards[whiteboardId := wb.(users := wb.users + [user.value.id])];
      }
      s := Resolved;
    }

    /**
     * `getUsersWithFilters`: at most LIMIT users whose first name matches,
     * in query order, each marked with whether it already belongs to the
     * whiteboard.
     */
    method GetUsersWithFilters(filters: Option<Filters>, matches: string -> bool) returns (r: SearchOutcome)
      ensures filters.None? <==> r == Unfiltered
      ensures filters.Some? ==> (r == SearchRejected <==> filters.value.whiteboardId !in whiteboards)
      ensures r.Found? ==>
        var candidates := Matching(users, matches, filters.value.excludes);
        var members := whiteboards[filters.value.whiteboardId].users;
        && |r.users| == (if |candidates| < LIMIT then |candidates| else LIMIT)
        && forall i :: 0 <= i < |r.users| ==> r.users[i] == EntryOf(candidates[i], candidates[i].id in members)
    {
      if filters.None? {
        return Unfiltered;
      }
      var candidates := Matching(users, matches, filters.value.excludes);
      if filters.value.whiteboardId !in whiteboards {
        return SearchRejected;
      }
      var members := whiteboards[filters.value.whiteboardId].users;
      var out: seq<SearchEntry> := [];
      var i := 0;
      while i < |candidates| && i < LIMIT
        invariant 0 <= i <= |candidates| && i <= LIMIT
        invariant |out| == i
        invariant forall k :: 0 <= k < i ==> out[k] == EntryOf(candidates[k], candidates[k].id in members)
      {
        var user := candidates[i];
        var alreadyIn, _ := ArrayUtil.CheckContains(Some(members), user.id);
        out := out + [EntryOf(user, alreadyIn)];
        i := i + 1;
      }
      r := Found(out);
    }

    /**
     * `addNotificationForUser`: saves an unseen notification for a known
     * user under the fresh id the database chose. For an unknown user the
     * property access throws inside the try block and nothing is saved; a
     * failed save is caught as well.
     */
    method AddNotificationForUser(body: string, kind: string, username: Username, freshId: NotificationId)
      modifies this
      ensures users == old(users) && whiteboards == old(whiteboards)
      ensures notifications ==
        if FindOneUser(users, username).Some? && freshId !in old(notifications)
        then old(notifications)[freshId := Notification(body, kind, false, FindOneUser(users, username).value.id)]
        else old(notifications)
      ensures FindOneUser(users, username).Some? && freshId !in old(notifications) ==>
        UnreadCount(notifications, FindOneUser(users, username).value.id) == UnreadCount(old(notifications), FindOneUser(users, username).value.id) + 1
    {
      var user := FindOneUser(users, username);
      if user.Some? && freshId !in notifications {
        var n := Notification(body, kind, false, user.value.id);
        AddingUnreadCountsOnce(notifications, freshId, n, user.value.id);
        notifications := notifications[freshId := n];
      }
    }

    /** `updateNotification`: marks an existing notification as seen. */
    method UpdateNotification(id: NotificationId)
      modifies this
      ensures users == old(users) && whiteboards == old(whiteboards)
      ensures notifications ==
        if id in old(notifications) then old(notifications)[id := old(notifications)[id].(visualized := true)]
        else old(notifications)
      ensures id in notifications ==> notifications[id].visualized
    {
      if id in notifications {
        notifications := notifications[id := notifications[id].(visualized := true)];
      }
    }

    /**
     * `deleteNotification`: deletes an existing notification and returns
     * it. The user lookup is not awaited, so the pending promise is always
     * truthy and the username never prevents the deletion.
     */
    method DeleteNotification(id: NotificationId, username: Username) returns (r: Option<Notification>)
      modifies this
      ensures users == old(users) && whiteboards == old(whiteboards)
      ensures id in old(notifications) ==> r == Some(old(notifications)[id]) && notifications == old(notifications) - {id}
      ensures id !in old(notifications) ==> r == None && notifications == old(notifications)
    {
      if id in notifications {
        r := Some(notifications[id]);
        notifications := notifications - {id};
      } else {
        r := None;
      }
    }
  }
}
