/**
 * The response shortcuts the REST controllers share: a server error, a
 * missing-parameter error, and the authorization step that either answers
 * 401 or hands over to the route's success handler.
 */
module Shortcuts {
  import opened Common
  import opened Model
  import opened Authorizer

  /** The JSON body of a response. */
  datatype Body = Message(text: string) | WhiteboardData(whiteboard: Whiteboard)

  /** One response: `res.status(status).json(body)`. */
  datatype Response = Response(status: int, body: Body)

  /** What the authorization shortcut does: answer the request itself, or run the success handler once. */
  datatype Gate = Answer(response: Response) | RunSuccessHandler

  /** `fail`: 500 "Something went wrong", whatever the request. */
  function Fail(): (r: Response)
    ensures r.status == 500 && r.body == Message("Something went wrong")
  {
    Response(500, Message("Something went wrong"))
  }

  /**
   * `failMissingElement`: 400 naming the missing element of the entity,
   * by default the ID of the whiteboard.
   */
  function FailMissingElement(entity: string := "whiteboard", missingElement: string := "ID"): (r: Response)
    ensures r.status == 400 && r.body.Message?
    ensures r.body.text == "Missing " + missingElement + " of the " + entity + " in the request"
  {
    Response(400, Message("Missing " + missingElement + " of the " + entity + " in the request"))
  }

  /** With no arguments the message names the whiteboard's ID. */
  lemma FailMissingElementDefaults()
    ensures FailMissingElement() == Response(400, Message("Missing ID of the whiteboard in the request"))
  {
    assert "Missing " + "ID" == "Missing ID";
    assert "Missing ID" + " of the " == "Missing ID of the ";
    assert "Missing ID of the " + "whiteboard" == "Missing ID of the whiteboard";
    assert "Missing ID of the whiteboard" + " in the request" == "Missing ID of the whiteboard in the request";
  }

  /**
   * `tryAuthorizeToWhiteboard`: runs the given authorizer method on
   * `(accessToken, whiteboardId)`. A denial answers 401 carrying the
   * denial's message and the success handler never runs; otherwise the
   * shortcut sends nothing and the success handler runs once.
   */
  function TryAuthorizeToWhiteboard(whiteboardId: Option<WhiteboardId>, accessToken: Option<string>,
                                    authorizerMethod: (Option<string>, Option<WhiteboardId>) -> AuthResult): (g: Gate)
    ensures authorizerMethod(accessToken, whiteboardId).Denied? <==> g.Answer?
    ensures g.Answer? ==> g.response == Response(401, Message(authorizerMethod(accessToken, whiteboardId).err))
  {
    match authorizerMethod(accessToken, whiteboardId)
    case Denied(err) => Answer(Response(401, Message(err)))
    case Authorized(_) => RunSuccessHandler
  }
}
