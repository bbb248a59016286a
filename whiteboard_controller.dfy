/**
 * The whiteboard controller: the socket handlers the realtime layer calls
 * for joining and drawing, and the two REST routes that read a whiteboard
 * and invite a collaborator.
 *
 * Every socket handler reports through a callback. A handler that reports
 * is modelled as a function or method returning the one callback call it
 * makes, so "called exactly once" holds by construction; `NeverCalled`
 * marks the one path where the callback is never reached.
 */
module WhiteboardController {
  import opened Common
  import opened Model
  import opened Authorizer
  import opened Token
  import opened Shortcuts

  /** The arguments of one callback call: `callback(err, value)`. */
  datatype Callback<T> = Callback(err: Option<string>, value: Option<T>)

  /** Whether, and how, a handler's callback is called. */
  datatype Completion = Called(err: Option<string>) | NeverCalled

  /**
   * `joinWhiteboard`: the member-level gate decides; a denial calls back
   * `(err, undefined)`, an admission `(undefined, username)`.
   */
  function JoinWhiteboard(accessToken: Option<string>, whiteboardId: Option<WhiteboardId>,
                          verify: string -> Verified, db: Db): (cb: Callback<Username>)
    ensures cb.err.Some? != cb.value.Some?
    ensures cb.value.Some? <==> NormalUserToWhiteboard(accessToken, whiteboardId, verify, db).Authorized?
    ensures cb.value.Some? ==> cb.value.value == verify(accessToken.value).username
    ensures cb.err.Some? ==> cb.err.value == NormalUserToWhiteboard(accessToken, whiteboardId, verify, db).err
  {
    match NormalUserToWhiteboard(accessToken, whiteboardId, verify, db)
    case Denied(err) => Callback(Some(err), None)
    case Authorized(username) => Callback(None, Some(username))
  }

  /**
   * `lineStarted`: after the stroke gate admits the caller, the database's
   * fresh id is called back; nothing is stored yet. A denial calls back the
   * error and no id is generated.
   */
  function LineStarted(line: Line, accessToken: Option<string>, whiteboardId: Option<WhiteboardId>,
                       verify: string -> Verified, db: Db, freshId: LineId): (cb: Callback<LineId>)
    ensures cb.err.Some? != cb.value.Some?
    ensures cb.value.Some? <==> AuthorizeNewLine(accessToken, whiteboardId, verify, db).Authorized?
    ensures cb.value.Some? ==> cb.value.value == freshId
    ensures cb.err.Some? ==> cb.err.value == AuthorizeNewLine(accessToken, whiteboardId, verify, db).err
  {
    match AuthorizeNewLine(accessToken, whiteboardId, verify, db)
    case Denied(err) => Callback(Some(err), None)
    case Authorized(_) => Callback(None, Some(freshId))
  }

  /** `lineMove`: no authorization and no storage; it always calls back success. */
  function LineMove(line: Line, lineId: LineId, whiteboardId: Option<WhiteboardId>): (cb: Callback<LineId>)
    ensures cb.err.None? && cb.value.None?
  {
    Callback(None, None)
  }

  /**
   * `checkToken`: calls back `(err)` when the token does not validate and
   * `(undefined, user)` when it does.
   */
  function CheckToken(accessToken: Option<string>, verify: string -> Verified): (cb: Callback<Username>)
    ensures cb.err.Some? != cb.value.Some?
    ensures cb.value.Some? <==> Truthy(accessToken) && verify(accessToken.value).Decoded?
    ensures cb.value.Some? ==> cb.value.value == verify(accessToken.value).username
  {
    match ValidateAccessToken(accessToken, verify)
    case TokenRejected(err) => Callback(Some(err), None)
    case TokenAccepted(user) => Callback(None, Some(user))
  }

  /**
   * `lineEnd`: after the stroke gate admits the caller, the stroke is
   * upserted under its id and success is called back even when the write
   * failed, because the store swallows that failure. A denial changes
   * nothing and calls back the error.
   */
  method LineEnd(store: Store, line: Line, accessToken: Option<string>, lineId: LineId,
                 whiteboardId: Option<WhiteboardId>, verify: string -> Verified, writeFails: bool)
    returns (c: Completion)
    modifies store
    ensures c.Called?
    ensures store.users == old(store.users) && store.notifications == old(store.notifications)
    ensures var auth := AuthorizeLineEnd(accessToken, lineId, whiteboardId, verify, old(store.State()));
      match auth
      case Denied(err) => c == Called(Some(err)) && store.whiteboards == old(store.whiteboards)
      case Authorized(_) =>
        && c == Called(None)
        && store.whiteboards ==
             if !writeFails && whiteboardId.value in old(store.whiteboards)
             then old(store.whiteboards)[whiteboardId.value := WithTrait(old(store.whiteboards)[whiteboardId.value], lineId, line)]
             else old(store.whiteboards)
  {
    var auth := AuthorizeLineEnd(accessToken, lineId, whiteboardId, verify, store.State());
    if auth.Denied? {
      return Called(Some(auth.err));
    }
    store.InsertLine(whiteboardId.value, lineId, line, writeFails);
    c := Called(None);
  }

  /**
   * `lineDelete`: after the stroke gate admits the caller, the stroke is
   * removed and success is called back. A rejected removal never reaches the
   * callback. A denial changes nothing and calls back the error.
   */
  method LineDelete(store: Store, lineId: LineId, accessToken: Option<string>,
                    whiteboardId: Option<WhiteboardId>, verify: string -> Verified, writeFails: bool)
    returns (c: Completion)
    modifies store
    ensures store.users == old(store.users) && store.notifications == old(store.notifications)
    ensures var auth := AuthorizeLineDelete(accessToken, lineId, whiteboardId, verify, old(store.State()));
      match auth
      case Denied(err) => c == Called(Some(err)) && store.whiteboards == old(store.whiteboards)
      case Authorized(_) =>
        && c == (if writeFails then NeverCalled else Called(None))
        && store.whiteboards ==
             if !writeFails && whiteboardId.value in old(store.whiteboards)
             then old(store.whiteboards)[whiteboardId.value := WithoutTrait(old(store.whiteboards)[whiteboardId.value], lineId)]
             else old(store.whiteboards)
  {
    var auth := AuthorizeLineDelete(accessToken, lineId, whiteboardId, verify, store.State());
    if auth.Denied? {
      return Called(Some(auth.err));
    }
    var settled := store.DeleteLine(whiteboardId.value, lineId, writeFails);
    c := if settled == Rejected then NeverCalled else Called(None);
  }

  /**
   * `getWhiteboardData`: a missing id answers 400 and a missing token 500,
   * in that order; then the member gate answers 401 or the whiteboard is
   * returned with 200 (404 if it is not found).
   */
  function GetWhiteboardData(id: Option<WhiteboardId>, accessToken: Option<string>,
                             verify: string -> Verified, db: Db): (r: Response)
    ensures !Truthy(id) ==> r == FailMissingElement("whiteboard")
    ensures Truthy(id) && !Truthy(accessToken) ==> r == Fail()
    ensures r.status == 200 <==>
      Truthy(id) && Truthy(accessToken) && NormalUserToWhiteboard(accessToken, id, verify, db).Authorized? && id.value in db.whiteboards
    ensures r.status == 200 ==> r.body == WhiteboardData(db.whiteboards[id.value])
    ensures Truthy(id) && Truthy(accessToken) && NormalUserToWhiteboard(accessToken, id, verify, db).Denied? ==>
      r == Response(401, Message(NormalUserToWhiteboard(accessToken, id, verify, db).err))
    ensures (Truthy(id) && Truthy(accessToken) && NormalUserToWhiteboard(accessToken, id, verify, db).Authorized?
             && id.value !in db.whiteboards) ==> r == Response(404, Message("Not found"))
  {
    if !Truthy(id) then FailMissingElement("whiteboard")
    else if !Truthy(accessToken) then Fail()
    else
      match TryAuthorizeToWhiteboard(id, accessToken, (t, w) => NormalUserToWhiteboard(t, w, verify, db))
      case Answer(response) => response
      case RunSuccessHandler =>
        if id.value in db.whiteboards then Response(200, WhiteboardData(db.whiteboards[id.value]))
        else Response(404, Message("Not found"))
  }

  /** Whiteboard data goes only to a verified member of that whiteboard. */
  lemma WhiteboardDataOnlyForMembers(id: Option<WhiteboardId>, accessToken: Option<string>,
                                     verify: string -> Verified, db: Db)
    requires UniqueUsernames(db.users)
    ensures GetWhiteboardData(id, accessToken, verify, db).status == 200 ==>
      Truthy(accessToken) && verify(accessToken.value).Decoded? && IsMember(db, verify(accessToken.value).username, id.value)
  {
    AuthorizedMeansPermitted(NORMAL, accessToken, id, verify, db);
  }

  /**
   * `inviteToWhiteboard`: a missing token answers 500, then a missing
   * username or whiteboard id answers 400, all before any authorization;
   * then only the owner may invite. An invitation the store rejects (an
   * unknown user) never gets a response.
   */
  method InviteToWhiteboard(store: Store, accessToken: Option<string>, username: Option<Username>,
                            whiteboardId: Option<WhiteboardId>, verify: string -> Verified, writeFails: bool)
    returns (r: Option<Response>)
    modifies store
    ensures store.users == old(store.users) && store.notifications == old(store.notifications)
    ensures !Truthy(accessToken) ==> r == Some(Fail())
    ensures Truthy(accessToken) && !Truthy(username) ==> r == Some(FailMissingElement("user", "username"))
    ensures Truthy(accessToken) && Truthy(username) && !Truthy(whiteboardId) ==> r == Some(FailMissingElement("whiteboard", "ID"))
    ensures var auth := OwnerToWhiteboard(accessToken, whiteboardId, verify, old(store.State()));
      Truthy(accessToken) && Truthy(username) && Truthy(whiteboardId) && auth.Denied? ==>
        r == Some(Response(401, Message(auth.err)))
    ensures var auth := OwnerToWhiteboard(accessToken, whiteboardId, verify, old(store.State()));
      !(Truthy(accessToken) && Truthy(username) && Truthy(whiteboardId) && auth.Authorized?) ==>
        store.whiteboards == old(store.whiteboards)
    ensures var auth := OwnerToWhiteboard(accessToken, whiteboardId, verify, old(store.State()));
      Truthy(accessToken) && Truthy(username) && Truthy(whiteboardId) && auth.Authorized? ==>
        if FindOneUser(old(store.users), username.value).None? || whiteboardId.value !in old(store.whiteboards)
           || (writeFails && FindOneUser(old(store.users), username.value).value.id !in old(store.whiteboards)[whiteboardId.value].users) then
          r == None && store.whiteboards == old(store.whiteboards)
        else
          var wb := old(store.whiteboards)[whiteboardId.value];
          && r == Some(Response(200, Message("User invited successfully")))
          && store.whiteboards == old(store.whiteboards)[whiteboardId.value :=
               wb.(users := PushIfAbsent(wb.users, FindOneUser(old(store.users), username.value).value.id))]
  {
    if !Truthy(accessToken) {
      return Some(Fail());
    } else if !Truthy(username) {
      return Some(FailMissingElement("user", "username"));
    } else if !Truthy(whiteboardId) {
      return Some(FailMissingElement("whiteboard", "ID"));
    }
    var db := store.State();
    var gate := TryAuthorizeToWhiteboard(whiteboardId, accessToken, (t, w) => OwnerToWhiteboard(t, w, verify, db));
    if gate.Answer? {
      return Some(gate.response);
    }
    var settled := store.InviteUserToWhiteboard(username.value, whiteboardId.value, writeFails);
    r := if settled == Rejected then None else Some(Response(200, Message("User invited successfully")));
  }
}
