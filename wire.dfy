/**
 * What travels over a WebSocket connection, as far as the relay cares:
 * an opaque payload with its binary/text flag, and the transport state
 * that the relay consults before writing.
 */
module Wire {

  /** One octet of a payload. */
  newtype byte = b: int | 0 <= b < 256

  /**
   * A received message: the payload bytes and the `isBinary` flag the
   * transport reported with them. The relay never looks inside `data`.
   */
  datatype Frame = Frame(data: seq<byte>, isBinary: bool)

  /**
   * The four values of a WebSocket's `readyState`
   * (CONNECTING = 0, OPEN = 1, CLOSING = 2, CLOSED = 3).
   */
  datatype ReadyState = Connecting | Open | Closing | Closed

  /** The numeric code the transport exposes for each state. */
  function Code(s: ReadyState): (n: nat)
    ensures n < 4
    ensures n == 1 <==> s == Open
  {
    match s
    case Connecting => 0
    case Open => 1
    case Closing => 2
    case Closed => 3
  }
}
