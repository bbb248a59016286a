/**
 * The authorization gate: decides whether the holder of an access token may
 * act on a whiteboard at a given level. Token verification is an oracle
 * (`verify`); the owner and member checks are the store's queries on a
 * snapshot of the database.
 */
module Authorizer {
  import opened Common
  import opened Model

  /** The two levels the backend uses; any level other than OWNER is served by the member check. */
  const OWNER: int := 0
  const NORMAL: int := 1

  /** The answer object: exactly one of `err` and `username`. */
  datatype AuthResult = Authorized(username: Username) | Denied(err: string)

  const MISSING_INPUT := "Please input accessToken and whiteboardId"
  const UNAUTHORIZED := "Unauthorized to this whiteboard"
  const INVALID := "Invalid token or illegal input values"

  /** The store check a level asks: the owner check at OWNER, the member check at any other level. */
  function LevelCheck(level: int, db: Db, username: Username, whiteboardId: WhiteboardId): CheckOutcome
  {
    if level == OWNER then ValidateOwnerToWhiteboard(db, username, whiteboardId)
    else ValidateUserToWhiteboard(db, username, whiteboardId)
  }

  /**
   * `userToWhiteboard`. A falsy token or an undefined whiteboard id is
   * refused before anything is consulted; a token that does not verify, or a
   * check that throws, is refused as invalid; a falsy check as unauthorized.
   */
  function UserToWhiteboard(level: int, accessToken: Option<string>, whiteboardId: Option<WhiteboardId>,
                            verify: string -> Verified, db: Db): (r: AuthResult)
    ensures !Truthy(accessToken) || whiteboardId.None? ==> r == Denied(MISSING_INPUT)
    ensures r.Authorized? <==>
      && Truthy(accessToken) && whiteboardId.Some?
      && verify(accessToken.value).Decoded?
      && LevelCheck(level, db, verify(accessToken.value).username, whiteboardId.value) == Granted
    ensures r.Authorized? ==> r.username == verify(accessToken.value).username
    ensures Truthy(accessToken) && whiteboardId.Some? && verify(accessToken.value).Invalid? ==> r == Denied(INVALID)
    ensures Truthy(accessToken) && whiteboardId.Some? && verify(accessToken.value).Decoded? ==>
      var check := LevelCheck(level, db, verify(accessToken.value).username, whiteboardId.value);
      && (check == Refused ==> r == Denied(UNAUTHORIZED))
      && (check == Throws ==> r == Denied(INVALID))
    ensures r.Denied? ==> r.err in {MISSING_INPUT, UNAUTHORIZED, INVALID}
  {
    if !Truthy(accessToken) || whiteboardId.None? then
      Denied(MISSING_INPUT)
    else match verify(accessToken.value)
      case Invalid => Denied(INVALID)
      case Decoded(username) =>
        match LevelCheck(level, db, username, whiteboardId.value)
        case Throws => Denied(INVALID)
        case Refused => Denied(UNAUTHORIZED)
        case Granted => Authorized(username)
  }

  /** `normalUserToWhiteboard`: the member-level gate. */
  function NormalUserToWhiteboard(accessToken: Option<string>, whiteboardId: Option<WhiteboardId>,
                                  verify: string -> Verified, db: Db): (r: AuthResult)
    ensures r == UserToWhiteboard(NORMAL, accessToken, whiteboardId, verify, db)
  {
    UserToWhiteboard(NORMAL, accessToken, whiteboardId, verify, db)
  }

  /** `ownerToWhiteboard`: the owner-level gate. */
  function OwnerToWhiteboard(accessToken: Option<string>, whiteboardId: Option<WhiteboardId>,
                             verify: string -> Verified, db: Db): (r: AuthResult)
    ensures r == UserToWhiteboard(OWNER, accessToken, whiteboardId, verify, db)
  {
    UserToWhiteboard(OWNER, accessToken, whiteboardId, verify, db)
  }

  /** `authorizeNewLine`: starting a stroke needs member level. */
  function AuthorizeNewLine(accessToken: Option<string>, whiteboardId: Option<WhiteboardId>,
                            verify: string -> Verified, db: Db): (r: AuthResult)
    ensures r == UserToWhiteboard(NORMAL, accessToken, whiteboardId, verify, db)
  {
    NormalUserToWhiteboard(accessToken, whiteboardId, verify, db)
  }

  /** `authorizeLineEnd`: ending a stroke needs member level; the stroke id plays no part. */
  function AuthorizeLineEnd(accessToken: Option<string>, lineId: LineId, whiteboardId: Option<WhiteboardId>,
                            verify: string -> Verified, db: Db): (r: AuthResult)
    ensures r == UserToWhiteboard(NORMAL, accessToken, whiteboardId, verify, db)
  {
    NormalUserToWhiteboard(accessToken, whiteboardId, verify, db)
  }

  /** `authorizeLineDelete`: deleting a stroke needs member level; the stroke id plays no part. */
  function AuthorizeLineDelete(accessToken: Option<string>, lineId: LineId, whiteboardId: Option<WhiteboardId>,
                               verify: string -> Verified, db: Db): (r: AuthResult)
    ensures r == UserToWhiteboard(NORMAL, accessToken, whiteboardId, verify, db)
  {
    NormalUserToWhiteboard(accessToken, whiteboardId, verify, db)
  }

  /**
   * The gate in terms of membership and ownership: with distinct usernames, member level
   * admits exactly a verified member of an existing whiteboard, owner level
   * exactly its verified owner; the admitted name is the token's.
   */
  lemma AuthorizedMeansPermitted(level: int, accessToken: Option<string>, whiteboardId: Option<WhiteboardId>,
                                 verify: string -> Verified, db: Db)
    requires UniqueUsernames(db.users)
    ensures var r := UserToWhiteboard(level, accessToken, whiteboardId, verify, db);
      r.Authorized? <==>
        && Truthy(accessToken) && whiteboardId.Some?
        && verify(accessToken.value).Decoded?
        && (if level == OWNER then IsOwner(db, verify(accessToken.value).username, whiteboardId.value)
            else IsMember(db, verify(accessToken.value).username, whiteboardId.value))
  {
    if Truthy(accessToken) && whiteboardId.Some? && verify(accessToken.value).Decoded? {
      var u := verify(accessToken.value).username;
      if level == OWNER {
        ValidateOwnerIsOwnership(db, u, whiteboardId.value);
      } else {
        ValidateUserIsMembership(db, u, whiteboardId.value);
      }
    }
  }

  /**
   * For a verified token of a known user whose whiteboard id resolves to
   * nothing, the member check throws and the gate answers "invalid", while
   * the owner check answers "unauthorized".
   */
  lemma UnknownWhiteboardAnswers(accessToken: string, whiteboardId: WhiteboardId, verify: string -> Verified, db: Db)
    requires accessToken != "" && verify(accessToken).Decoded?
    requires UniqueUsernames(db.users) && UserExists(db, verify(accessToken).username)
    requires whiteboardId !in db.whiteboards
    ensures UserToWhiteboard(NORMAL, Some(accessToken), Some(whiteboardId), verify, db) == Denied(INVALID)
    ensures UserToWhiteboard(OWNER, Some(accessToken), Some(whiteboardId), verify, db) == Denied(UNAUTHORIZED)
  {
    ValidateUserIsMembership(db, verify(accessToken).username, whiteboardId);
  }
}
