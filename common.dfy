/**
 * Shared vocabulary of the whiteboard backend model: optional values, the
 * identifiers the services pass around, and the stroke payload that clients
 * draw and the store persists.
 */
module Common {

  datatype Option<+T> = None | Some(value: T)

  /** A principal's login name. */
  type Username = string

  /** A whiteboard's document id; the realtime layer also uses it as the room name. */
  type WhiteboardId = string

  /** A stroke's id, generated server-side when a stroke starts. */
  type LineId = string

  /** The primary key of a user document. */
  type UserId = nat

  /** The primary key of a notification document. */
  type NotificationId = nat

  /** The identifier of one live socket connection. */
  type SocketId = nat

  /** What verifying an access token yields: the decoded principal, or an exception. */
  datatype Verified = Decoded(username: Username) | Invalid

  datatype Point = Point(x: int, y: int)

  /** A stroke as the client sends it: its points, colour and stroke width. */
  datatype Line = Line(points: seq<Point>, color: string, stroke: int)

  /**
   * JavaScript truthiness of a value that is either absent (undefined/null)
   * or a string: the empty string is falsy as well.
   */
  predicate Truthy(s: Option<string>)
  {
    s.Some? && s.value != ""
  }
}
