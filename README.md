# Collaborative whiteboard backend: verified model of the realtime core

This project models, in Dafny, the core of a collaborative realtime whiteboard backend, and proves properties of that model:

- **The realtime registry** (`Realtime`). This is the server's in-memory record of:
  - which user is in the application on which socket;
  - which sockets and usernames are in which whiteboard room.

  It also covers the socket event handlers that update that record and fan strokes out to the rest of a room:
  - the connection gate;
  - joining the application;
  - inviting a collaborator;
  - joining a whiteboard;
  - the four drawing events;
  - leaving.

  `Registry` is a class whose fields are the source's maps. Each handler is a method that may change only the fields its frame names, and its postcondition gives the new value of each of them. A socket is an id, and what the server emits to it is appended to that socket's outbox.
- **The authorization gate** (`Authorizer`). A level-dispatched decision: owner level uses the owner check, every other level uses the member check. It is taken over a token verifier and the store's checks, and it yields either a username or one of three error messages.
- **The drawing controller** (`WhiteboardController`). These are the socket handlers for join, stroke start, move, end and delete, and the token check. Each first authorizes, then changes the store, then reports through a callback. A handler returns the one callback call it makes; `NeverCalled` marks the single path on which the callback is never reached. The module also holds the two REST routes that read a whiteboard and invite a collaborator.
- **The store** (`Model`). This is the document store over users, whiteboards (strokes keyed by id) and notifications:
  - `Store` is a class whose methods change it in place;
  - the read-only checks are functions over its state `Db`;
  - the store's two copies (`backend/src/models/model.js` and `api/src/models/model.js`) have the same logic, so one model covers both, and rows below cite whichever copy states the property.
- **Helpers**:
  - the linear membership search (`ArrayUtil`);
  - where an HTTP request carries its token, and the middleware that admits only valid tokens (`Token`);
  - the response shortcuts (`Shortcuts`).

Things outside the code are parameters:
- Token verification is a function `verify: string -> Verified` (`Decoded(username)` or `Invalid`).
- The database's fresh ids are parameters `freshId`.
- A write failure is a parameter `writeFails`.
- The user search's case-insensitive regular expression is a predicate `matches` over first names.

JavaScript truthiness of an optional string is `Truthy`: absent and `""` are falsy.

A few behaviours are modelled as the code has them, even where they look unintended:
- The user list sent to a joiner already contains the joiner.
- Leaving removes every occurrence of the socket and of the username.
- A refused `drawStart` sends no acknowledgement at all.
- `lineEnd` reports success even when the write failed, because `insertLine` catches the failure.
- `lineDelete` never calls back when the removal's promise rejects.
- Leaving one room removes the drawing handlers of every room the socket is in, because `removeAllListeners` is by event name.
- One leave event runs the leave hook of every room the socket joined, even after the first hook has detached the others: the emitter runs the listener list it held when the event fired.
- A transport disconnect keeps the user's application entry.
- `deleteNotification` does not await its user lookup, so the username never prevents a deletion.
- The member check throws, which the gate reports as "Invalid token or illegal input values", when a known user asks about a whiteboard that does not exist. The owner check only refuses in that case.

## Model

| member | source | states |
|---|---|---|
| ArrayUtil.CheckContains | backend/src/util/arrayUtil.js:7-14 | true iff the array is present and contains the id; an absent array gives false without probing; on a hit the last probe is the first occurrence and all earlier elements differ; on a miss every element was probed |
| Model.FindUserIndex | backend/src/models/model.js:23-29 | the lookup by username finds the first user with that name, and finds nothing exactly when no user has it |
| Model.FindOneUser | backend/src/models/model.js:23-29 | a user is found iff some user has the name; the one found has that name and is the first such in the collection |
| Model.FindOneUserIsTheUser | backend/src/models/model.js:23-29 | with distinct usernames, the user the lookup returns is the only user with that name |
| Model.RenameKeepsUsersDistinct | backend/src/models/model.js:53-61 | the update guard (new name unused or unchanged) keeps usernames distinct, and ids are never touched |
| Model.Store.UpdateUserInfo | api/src/models/model.js:77-85 | an existing user whose new name is free or its own gets the new username and names, and the updated record is returned; otherwise null and nothing changes; distinct usernames and ids stay distinct |
| Model.ValidateUserToWhiteboard | backend/src/models/model.js:151-157 | a grant is always a member of the whiteboard; it throws exactly for a known user and a missing whiteboard; an unknown user is refused |
| Model.ValidateOwnerToWhiteboard | backend/src/models/model.js:158-164 | never throws; a grant is always the whiteboard's owner; an unknown user or a missing whiteboard is refused |
| Model.ValidateUserIsMembership | backend/src/models/model.js:151-157 | the member check grants exactly the members of the whiteboard, and throws exactly for a known user and a missing whiteboard |
| Model.ValidateOwnerIsOwnership | backend/src/models/model.js:158-164 | with distinct usernames, the owner check grants exactly the whiteboard's owner |
| Model.NewWhiteboard | api/src/models/model.js:115-133 | a new whiteboard has the creator as owner and sole member, and no strokes |
| Model.Store.CreateWhiteboard | backend/src/models/model.js:78-96 | an existing user's whiteboard is stored under the fresh id, owned by that user, who is its only member, with no strokes; an unknown user creates nothing |
| Model.PushIfAbsent | backend/src/models/model.js:144-150 | a list that already holds the id is returned unchanged, and otherwise the id is appended at the end: the `includes` guard before `$push` |
| Model.PushIfAbsentProperties | backend/src/models/model.js:144-150 | a second invite changes nothing, and a member list without duplicates stays without duplicates |
| Model.Store.InviteUserToWhiteboard | api/src/models/model.js:215-221 | the user's id is appended to the members unless already there; an unknown user or whiteboard rejects and changes nothing, and so does a failed write when the id had to be appended |
| Model.Store.InsertLine | backend/src/models/model.js:122-133 | upsert: the stroke is stored under its id and no other stroke id appears or disappears; a failed write is swallowed and changes nothing; users and notifications are untouched |
| Model.Store.DeleteLine | api/src/models/model.js:200-207 | only the stroke under the id is removed; an unknown whiteboard changes nothing; a failed write rejects |
| Model.WithTrait | backend/src/models/model.js:122-133 | the stroke is stored under its id; every other stroke id is present as before with its stroke; name, owner and members unchanged |
| Model.WithoutTrait | api/src/models/model.js:200-207 | the id holds no stroke; every other stroke id is present as before with its stroke; name, owner and members unchanged |
| Model.SaveThenDeleteStroke | backend/src/models/model.js:135-142 | a stroke saved then deleted leaves no entry under its id and every other stroke as before; deleting an absent stroke changes nothing |
| Model.AddingUnreadCountsOnce | backend/src/models/model.js:213-228 | a new notification saved unread adds one to its owner's unread count and to no other count |
| Model.MarkingReadCountsOnce | api/src/models/model.js:361-371 | marking a notification as read takes one off its owner's unread count if it was unread, and changes no other count |
| Model.Store.AddNotificationForUser | api/src/models/model.js:320-335 | a known user's notification is stored unread under the fresh id and that user's unread count grows by one; for an unknown user nothing is stored |
| Model.Store.UpdateNotification | backend/src/models/model.js:243-253 | an existing notification becomes read and nothing else changes; an unknown id changes nothing |
| Model.Store.DeleteNotification | backend/src/models/model.js:230-241 | an existing notification is removed and returned whatever the username; an unknown id changes nothing |
| Model.GetNotificationOfUser | api/src/models/model.js:302-312 | a known user gets exactly the notifications addressed to them; an unknown user gets nothing |
| Model.GetUnreadNotificationNumber | backend/src/models/model.js:255-259 | a known user's answer is the number of their notifications not yet read; an unknown user's call fails |
| Model.Matching | backend/src/models/model.js:182-188 | the query result holds exactly the users whose first name matches the pattern and is not the excluded one, and is no longer than the collection |
| Model.MatchingConcat | backend/src/models/model.js:182-188 | the query keeps store order: the result for a concatenation is the concatenation of the results |
| Model.MatchingSingle | backend/src/models/model.js:182-188 | one user is in the result exactly when its first name matches the pattern and is not the excluded one |
| Model.Store.GetUsersWithFilters | backend/src/models/model.js:177-199 | without filters the unfiltered branch; with a missing whiteboard the search fails; otherwise the first min(matches, 20) matching users in order, each flagged with whether it is already a member |
| Authorizer.UserToWhiteboard | backend/src/auth/Authorizer.js:31-52 | a falsy token or missing id is refused before anything is consulted; admission iff the token verifies and the level's check grants, carrying the token's username; the refusal is "Unauthorized to this whiteboard" for a falsy check and "Invalid token or illegal input values" for a failed verification or a throwing check |
| Authorizer.NormalUserToWhiteboard | backend/src/auth/Authorizer.js:61-63 | equals the gate at member level |
| Authorizer.OwnerToWhiteboard | backend/src/auth/Authorizer.js:71-73 | equals the gate at owner level |
| Authorizer.AuthorizeNewLine | backend/src/auth/Authorizer.js:82-84 | equals the member-level gate |
| Authorizer.AuthorizeLineEnd | backend/src/auth/Authorizer.js:94-96 | equals the member-level gate; the stroke id plays no part |
| Authorizer.AuthorizeLineDelete | backend/src/auth/Authorizer.js:106-108 | equals the member-level gate; the stroke id plays no part |
| Authorizer.AuthorizedMeansPermitted | backend/src/auth/Authorizer.js:38-47 | with distinct usernames, admission iff the token verifies and its user owns (owner level) or is a member of (other levels) an existing whiteboard |
| Authorizer.UnknownWhiteboardAnswers | backend/src/auth/Authorizer.js:48-51 | for a known user and a missing whiteboard, member level answers "Invalid token or illegal input values" and owner level "Unauthorized to this whiteboard" |
| Token.GetToken | backend/src/middlewares/token.js:38-52 | under a bearer header the token is its second word, present iff there is one; otherwise a token is found iff the query or the cookie has a truthy one, and it is one of those |
| Token.SplitSpace | backend/src/middlewares/token.js:39 | splitting at spaces always yields at least one word |
| Token.BearerHeaderWords | backend/src/middlewares/token.js:39-41 | a `Bearer <token>` header with a space-free token splits into exactly those two words |
| Token.BearerHeaderWins | backend/src/middlewares/token.js:39-41 | a bearer header yields its token whatever the query and cookie hold |
| Token.OtherSchemeFallsThrough | backend/src/middlewares/token.js:39-47 | a header with another scheme is ignored: the query parameter, then the cookie, decide |
| Token.QueryBeforeCookie | backend/src/middlewares/token.js:42-47 | without a bearer header the query parameter wins over the cookie |
| Token.BareBearerFindsNothing | backend/src/middlewares/token.js:39-41 | a header of just `Bearer` yields no token even if the query or cookie has one |
| Token.ValidateAccessToken | backend/src/auth/Authenticator.js:152-162 | accepted iff the token is truthy and verifies, with the verified username |
| Token.TokenValidator | backend/src/middlewares/token.js:11-30 | no token found answers 401 "Missing access token in the request"; an invalid one 401 "Invalid Access Token"; otherwise the request continues with the user and exactly the token found |
| Shortcuts.Fail | backend/src/controllers/utility/shortcuts.js:11-13 | always 500 "Something went wrong" |
| Shortcuts.FailMissingElement | backend/src/controllers/utility/shortcuts.js:22-24 | 400 with "Missing <element> of the <entity> in the request" |
| Shortcuts.FailMissingElementDefaults | backend/src/controllers/utility/shortcuts.js:22 | the defaults name the ID of the whiteboard |
| Shortcuts.TryAuthorizeToWhiteboard | backend/src/controllers/utility/shortcuts.js:38-48 | a refusal answers 401 with the refusal's message, otherwise the success handler runs; the authorizer is asked about the given token and whiteboard |
| WhiteboardController.JoinWhiteboard | backend/src/controllers/whiteboardController.js:85-94 | exactly one of error and username is called back; the username iff the member gate admits, and it is the token's |
| WhiteboardController.LineStarted | backend/src/controllers/whiteboardController.js:105-116 | exactly one of error and id; the fresh id iff the stroke gate admits; nothing is stored |
| WhiteboardController.LineMove | backend/src/controllers/whiteboardController.js:118-121 | always calls back success with nothing checked |
| WhiteboardController.CheckToken | backend/src/controllers/whiteboardController.js:181-189 | exactly one of error and user; the user iff the token is truthy and verifies |
| WhiteboardController.LineEnd | backend/src/controllers/whiteboardController.js:132-147 | a refusal calls back the error and leaves the store alone; an admission upserts the stroke and calls back success, even when the write failed |
| WhiteboardController.LineDelete | backend/src/controllers/whiteboardController.js:158-172 | a refusal calls back the error and leaves the store alone; an admission removes the stroke and calls back success, or never calls back when the removal rejects |
| WhiteboardController.GetWhiteboardData | backend/src/controllers/whiteboardController.js:25-42 | missing id 400, then missing token 500; a denial from the member gate 401 with the gate's message; 200 with the whiteboard iff the gate admits and it exists, and 404 "Not found" when it admits and the whiteboard is missing |
| WhiteboardController.WhiteboardDataOnlyForMembers | backend/src/controllers/whiteboardController.js:25-42 | a 200 goes only to a verified member of that whiteboard |
| WhiteboardController.InviteToWhiteboard | backend/src/controllers/whiteboardController.js:53-68 | missing token 500, then missing username or id 400, before any authorization; then only the owner may invite (otherwise 401); an invite the store rejects (unknown user or whiteboard, or a failed write) gets no response; success appends the user once |
| Realtime.FanOut | backend/src/realtime/api/Realtime.js:150-154 | the broadcast `forEach` never delivers to its originator: the origin's outbox is unchanged (with `FanOutDelivers` and `FanOutKeys`: every other socket of the list gets the event once per occurrence, and sockets outside the list get nothing) |
| Realtime.FanOutDelivers | backend/src/realtime/api/Realtime.js:150-154 | a broadcast appends the event to every listed socket other than the originator, once per occurrence, and to nothing else; the originator never receives it |
| Realtime.FanOutKeys | backend/src/realtime/api/Realtime.js:167-171 | a broadcast reaches no socket outside the list |
| Realtime.JoinDelivery | backend/src/realtime/api/Realtime.js:150-156 | on a join the joiner gets only the user list, and every other socket gets the announcement once per time it is in the room |
| Realtime.Without | backend/src/realtime/api/Realtime.js:222-223 | the filtered list no longer holds the leaver and is no longer than before |
| Realtime.WithoutCounts | backend/src/realtime/api/Realtime.js:222-223 | leaving drops every occurrence of the leaver and keeps every other element as often as before |
| Realtime.WithoutConcat | backend/src/realtime/api/Realtime.js:222-223 | filtering distributes over concatenation, so the kept elements keep their order |
| Realtime.WithoutIdempotent | backend/src/realtime/api/Realtime.js:222-223 | leaving twice yields the same lists as leaving once |
| Realtime.WithoutAbsent | backend/src/realtime/api/Realtime.js:222 | filtering out an absent socket changes nothing |
| Realtime.WithoutMembership | backend/src/realtime/api/Realtime.js:222-223 | after filtering, exactly the other elements are present |
| Realtime.AfterLeave | backend/src/realtime/api/Realtime.js:229-236 | leaving removes the handlers of the cleared events in every room and this room's three leave hooks, adds none, and keeps every other handler |
| Realtime.RemoveAll | backend/src/realtime/api/Realtime.js:78 | exactly the handlers of other events remain |
| Realtime.LeaveStep | backend/src/realtime/api/Realtime.js:220-237 | one run of the leave hook: the socket and the user are no longer in the room's lists, no room list is created or dropped, and the socket's handlers become those `AfterLeave` keeps |
| Realtime.LeaveStepDelivers | backend/src/realtime/api/Realtime.js:224-228 | a leave sends the departure to each remaining socket of the room once per occurrence, and to the leaver and to sockets outside the room nothing |
| Realtime.LeaveAll | backend/src/realtime/api/Realtime.js:240-243 | running a sequence of leave hooks creates and drops no room list |
| Realtime.LeaveAllShrinks | backend/src/realtime/api/Realtime.js:222-223 | leave hooks only take sockets and users out of room lists |
| Realtime.LeaveAllUntouched | backend/src/realtime/api/Realtime.js:222-223 | a room no hook names keeps both its lists |
| Realtime.LeaveAllRemovesSocket | backend/src/realtime/api/Realtime.js:222 | after the hooks, the socket is in no room that a hook names |
| Realtime.LeaveAllRemovesUser | backend/src/realtime/api/Realtime.js:223 | after the hooks, no hooked user is in the hooked room's user list |
| Realtime.LeaveAllListener | backend/src/realtime/api/Realtime.js:229-236 | after the hooks the socket holds no new handler, none of a cleared event, and no leave hook of a hooked room |
| Realtime.LeaveAllKeeps | backend/src/realtime/api/Realtime.js:229-236 | every other handler of the socket survives the hooks |
| Realtime.LeaveAllOtherSockets | backend/src/realtime/api/Realtime.js:229-236 | a socket's leave hooks leave every other socket's handlers alone |
| Realtime.Registry.constructor | backend/src/realtime/api/Realtime.js:34-41 | the registry starts empty |
| Realtime.Registry.OnConnection | backend/src/realtime/api/Realtime.js:53-92 | a handshake with a truthy token gets the joinApplication, disconnectApplication and disconnect handlers; any other socket gets none, stays inert, and by the registry invariant is never in the application, in a room, or sent anything |
| Realtime.Registry.Broadcast | backend/src/realtime/api/Realtime.js:224-228 | the loop emits to the room's current members as the fan-out rule says |
| Realtime.Registry.OnJoinApplication | backend/src/realtime/api/Realtime.js:56-67 | an invalid token answers ko, disconnects, and leaves the application map alone; a valid one maps the user to this socket (replacing any earlier one), attaches the invite and join handlers, emits joinedApplication and answers ok |
| Realtime.Registry.LeaveApplication | backend/src/realtime/api/Realtime.js:70-81 | with a valid token the token user's application entry is deleted and the join handler detached; otherwise nothing |
| Realtime.Registry.OnInviteCollaborator | backend/src/realtime/api/Realtime.js:99-108 | with a valid token the invite naming the inviter goes only to the invitee's application socket, and is silently dropped if there is none; an invalid token disconnects |
| Realtime.Registry.OnJoinWhiteboard | backend/src/realtime/api/Realtime.js:110-130 | ok iff the member gate admits a non-empty username, and then the state is exactly what a join makes it, and the user is a verified member of the whiteboard; ko iff it refuses, and then only the socket is disconnected; otherwise nothing changes |
| Realtime.Registry.JoinWhiteboard | backend/src/realtime/api/Realtime.js:133-156 | socket and username appended to the room's lists (created on first join, with no duplicate guard); every other member told the user connected; the joiner sent the new user list, which ends with its own name; the room handlers attached |
| Realtime.Registry.EnterRoom | backend/src/realtime/api/Realtime.js:138-148 | the user's room and socket recorded, and the socket and username appended to the room's lists |
| Realtime.Registry.Emit | backend/src/realtime/api/Realtime.js:156 | the event is appended to the socket's own outbox and nothing else changes |
| Realtime.Registry.AttachRoomHandlers | backend/src/realtime/api/Realtime.js:160-243 | the socket gains the seven handlers of the room and keeps its others |
| Realtime.Registry.OnDrawStart | backend/src/realtime/api/Realtime.js:160-174 | on admission the drawer is acknowledged with the fresh id and the stroke is broadcast with that same id; on refusal no acknowledgement and no broadcast |
| Realtime.Registry.OnDrawing | backend/src/realtime/api/Realtime.js:177-189 | a move is always broadcast to the rest of the room |
| Realtime.Registry.OnDrawEnd | backend/src/realtime/api/Realtime.js:191-204 | the stroke is broadcast exactly when the gate admits, whether or not it was stored; an admission upserts it when the write succeeds and the whiteboard exists, and otherwise leaves the store as it was; a refusal changes nothing |
| Realtime.Registry.OnLineDelete | backend/src/realtime/api/Realtime.js:206-218 | the deletion is broadcast exactly when the gate admits and the removal succeeds; an admission removes the stroke when the write succeeds and the whiteboard exists, and otherwise leaves the store as it was; a refusal changes nothing |
| Realtime.Registry.LeaveRoom | backend/src/realtime/api/Realtime.js:220-237 | one leave hook changes the registry exactly as `LeaveStep` says |
| Realtime.Registry.LeaveLists | backend/src/realtime/api/Realtime.js:222-223 | the room's lists lose the socket and the user |
| Realtime.Registry.DetachRoomHandlers | backend/src/realtime/api/Realtime.js:229-236 | the socket's handlers become those `AfterLeave` keeps |
| Realtime.Registry.RunLeaveHooks | backend/src/realtime/api/Realtime.js:240-243 | the loop runs the hooks in attachment order, as `LeaveAll` says |
| Realtime.Registry.HooksHaveRooms | backend/src/realtime/api/Realtime.js:142-148 | a room hook is attached only once the room's lists exist, so reading them cannot throw |
| Realtime.Registry.OnLeftWhiteboard | backend/src/realtime/api/Realtime.js:220-241 | every hook of the event runs, even those an earlier one detached; the socket and user leave every hooked room; no handler is added and no leftWhiteboard hook remains |
| Realtime.Registry.OnDisconnectApplication | backend/src/realtime/api/Realtime.js:70-81 | the application-level handler's update (applied first here; in the source it lands in `checkToken`'s callback, after the room hooks, and the two commute: it touches only `applicationData` and the `joinWhiteboard` handlers, which the hooks neither read nor change) and every room hook of the event; the socket and user leave every hooked room |
| Realtime.Registry.DetachAll | backend/src/realtime/api/Realtime.js:84-87 | the transport disconnect detaches every handler of the socket |
| Realtime.Registry.OnDisconnect | backend/src/realtime/api/Realtime.js:84-87 | the connection-level handler detaches everything, every room hook of the event runs anyway, the socket and user leave every hooked room, and the socket is left with no handler |

## Left out

- Socket.IO itself is not modelled: the server object, `socket.join` and the transport. For the drawing events, whose handlers detach nothing, the environment calls the handler method once per attached handler, which is what the emitter does. For the three leave events, the dispatch methods take the attachment order of the room hooks as a parameter, because a set of handlers does not record it.
- `socket.disconnect()` is modelled by adding the socket to `closed`. The disconnect event it fires is `OnDisconnect`, which the environment runs next. Nothing follows `socket.disconnect()` in those handlers, so the final state is the same.
- Handler multiplicity is modelled only for the leave events: attached handlers are a set per socket, so attaching the same room handler twice counts once. The leave dispatch's `order` may list one hook twice and then runs it twice. A drawing event with a duplicated handler would be broadcast twice by the source; the model broadcasts it once per call. Likewise, a second `joinApplication` on one socket attaches a second `inviteCollaborator` and a second `joinWhiteboard` handler (backend/src/realtime/api/Realtime.js:99, 110), which the source would run twice per event; the set of handlers holds each once, so the model handles the event once.
- Logging is not modelled; it is console output only.
- Asynchrony is not modelled. Each handler runs as one atomic step with its verification and storage outcomes given as parameters; interleavings of concurrent handlers are out of scope.
- Token signing and verification (jsonwebtoken) and password hashing (bcrypt) are not modelled. Verification is the `verify` parameter.
- Mongo mechanics are not modelled: connecting, ObjectId generation (`generateFreshLineId`, the `freshId` parameters), the regular-expression match (the `matches` parameter), and casting errors for malformed ids.
- Stroke ids containing a dot are not modelled. A dot would make the `$set`/`$unset` path a nested key.
- Model.Store.GetUsersWithFilters: the unfiltered branch only reports that it was taken. It returns every user document, which the model does not list.
- `getWhiteboards`, `updateWhiteboard`, `deleteWhiteboard`, `createUser` and `updateUserPassword` are not modelled. No handler of the realtime core calls them.
- Coordinates are integers. The source's floating-point coordinates play no part in any decision.
- WhiteboardController.LineMove: the destructuring of an undefined `line`, which would throw before the callback, is not modelled.
- Model.Store.CreateWhiteboard: a failed save is modelled only as a collision with an existing id (`SaveFailed`). The error object the source returns in that case is not modelled.

