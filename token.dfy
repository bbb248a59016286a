/**
 * The HTTP access-token middleware: where a request carries its token, and
 * the gate that lets a request through to the route only with a valid one.
 */
module Token {
  import opened Common

  /** The parts of a request the middleware looks at; None stands for an absent header, parameter or cookie. */
  datatype Request = Request(authorization: Option<string>, queryToken: Option<string>, cookieToken: Option<string>)

  /** What `validateAccessToken` answers: an error message, or the decoded user. */
  datatype TokenCheck = TokenRejected(err: string) | TokenAccepted(user: Username)

  /** What the middleware does with the request: answers it, or hands it to the route with `res.locals` filled in. */
  datatype ValidatorOutcome =
    | Respond(status: int, message: string)
    | Next(user: Username, accessToken: string)

  const MISSING_TOKEN := "Missing access token in the request"
  const INVALID_TOKEN := "Invalid Access Token"

  /**
   * JavaScript's `s.split(' ')`: cuts at every single space, so adjacent
   * spaces yield empty words and there is always at least one word.
   */
  function SplitSpace(s: string): (words: seq<string>)
    ensures |words| >= 1
  {
    if |s| == 0 then [""]
    else
      var rest := SplitSpace(s[1..]);
      if s[0] == ' ' then [""] + rest else [[s[0]] + rest[0]] + rest[1..]
  }

  /** A string without spaces is one word. */
  lemma {:induction false} SplitWithoutSpace(s: string)
    requires ' ' !in s
    ensures SplitSpace(s) == [s]
  {
    if |s| > 0 {
      assert ' ' !in s[1..];
      SplitWithoutSpace(s[1..]);
      assert [s[0]] + s[1..] == s;
    }
  }

  /** A leading space-free word followed by a space is split off as the first word. */
  lemma {:induction false} SplitFirstWord(w: string, rest: string)
    requires ' ' !in w
    ensures SplitSpace(w + " " + rest) == [w] + SplitSpace(rest)
  {
    if |w| == 0 {
      assert w + " " + rest == [' '] + rest;
      assert (w + " " + rest)[1..] == rest;
    } else {
      assert (w + " " + rest)[1..] == w[1..] + " " + rest;
      assert ' ' !in w[1..];
      SplitFirstWord(w[1..], rest);
      assert [w[0]] + w[1..] == w;
    }
  }

  /** The words of a header written `Bearer <token>` with a space-free token. */
  lemma BearerHeaderWords(token: string)
    requires ' ' !in token
    ensures SplitSpace("Bearer " + token) == ["Bearer", token]
  {
    assert "Bearer " + token == "Bearer" + " " + token;
    SplitFirstWord("Bearer", token);
    SplitWithoutSpace(token);
  }

  /** Whether the request carries a truthy Authorization header whose first word is `Bearer`. */
  predicate BearerScheme(req: Request)
  {
    Truthy(req.authorization) && SplitSpace(req.authorization.value)[0] == "Bearer"
  }

  /**
   * `getToken`: a truthy Authorization header whose first word is `Bearer`
   * decides alone (its second word, undefined when there is none); then a
   * truthy `accessToken` query parameter; then a truthy `accessToken`
   * cookie; otherwise null.
   */
  function GetToken(req: Request): (r: Option<string>)
    ensures BearerScheme(req) ==> (r.Some? <==> |SplitSpace(req.authorization.value)| > 1)
    ensures BearerScheme(req) && |SplitSpace(req.authorization.value)| > 1 ==>
      r == Some(SplitSpace(req.authorization.value)[1])
    ensures !BearerScheme(req) && r.Some? ==> r == req.queryToken || r == req.cookieToken
    ensures !BearerScheme(req) ==> (r.Some? <==> Truthy(req.queryToken) || Truthy(req.cookieToken))
    ensures !BearerScheme(req) && r.Some? ==> Truthy(r)
  {
    if BearerScheme(req) then
      var words := SplitSpace(req.authorization.value);
      if |words| > 1 then Some(words[1]) else None
    else if Truthy(req.queryToken) then req.queryToken
    else if Truthy(req.cookieToken) then req.cookieToken
    else None
  }

  /** A `Bearer <token>` header yields the token, whatever the query and cookies hold. */
  lemma BearerHeaderWins(req: Request, token: string)
    requires ' ' !in token
    requires req.authorization == Some("Bearer " + token)
    ensures GetToken(req) == Some(token)
  {
    BearerHeaderWords(token);
  }

  /** A header with another scheme is ignored: the lookup is the one for a request without the header. */
  lemma OtherSchemeFallsThrough(req: Request)
    requires req.authorization.Some? && SplitSpace(req.authorization.value)[0] != "Bearer"
    ensures GetToken(req) == GetToken(req.(authorization := None))
    ensures Truthy(req.queryToken) ==> GetToken(req) == req.queryToken
    ensures !Truthy(req.queryToken) && Truthy(req.cookieToken) ==> GetToken(req) == req.cookieToken
  {
  }

  /** Without a bearer header, the query parameter takes precedence over the cookie. */
  lemma QueryBeforeCookie(req: Request)
    requires !Truthy(req.authorization)
    requires Truthy(req.queryToken) && Truthy(req.cookieToken)
    ensures GetToken(req) == req.queryToken
  {
  }

  /**
   * A bare `Bearer` header answers undefined even when the query or the
   * cookie carries a token: the header branch has already been taken.
   */
  lemma BareBearerFindsNothing(req: Request)
    requires req.authorization == Some("Bearer")
    ensures GetToken(req) == None
  {
    SplitWithoutSpace("Bearer");
  }

  /**
   * `validateAccessToken` of the authenticator: a falsy token is refused
   * without verifying it; otherwise the verifier decides.
   */
  function ValidateAccessToken(token: Option<string>, verify: string -> Verified): (r: TokenCheck)
    ensures r.TokenAccepted? <==> Truthy(token) && verify(token.value).Decoded?
    ensures r.TokenAccepted? ==> r.user == verify(token.value).username
  {
    if !Truthy(token) then TokenRejected("A token is required for authorization")
    else match verify(token.value)
      case Invalid => TokenRejected("Invalid Token")
      case Decoded(username) => TokenAccepted(username)
  }

  /**
   * `tokenValidator`: no token found answers 401 without validating; a
   * token that does not validate answers 401; a valid one fills in the
   * user and the token and calls `next`, once.
   */
  function TokenValidator(req: Request, verify: string -> Verified): (r: ValidatorOutcome)
    ensures !Truthy(GetToken(req)) ==> r == Respond(401, MISSING_TOKEN)
    ensures Truthy(GetToken(req)) && verify(GetToken(req).value).Invalid? ==> r == Respond(401, INVALID_TOKEN)
    ensures r.Next? <==> Truthy(GetToken(req)) && verify(GetToken(req).value).Decoded?
    ensures r.Next? ==> r.accessToken == GetToken(req).value && r.user == verify(r.accessToken).username
  {
    var token := GetToken(req);
    if Truthy(token) then
      match ValidateAccessToken(token, verify)
      case TokenRejected(_) => Respond(401, INVALID_TOKEN)
      case TokenAccepted(user) => Next(user, token.value)
    else
      Respond(401, MISSING_TOKEN)
  }
}
