/**
 * The upgrade router: the request target of an HTTP upgrade decides which
 * WebSocket server completes the handshake, by exact string comparison.
 */
module Router {

  /** Path on which the depth-camera producer connects. */
  const ProducerPath: string := "/ws/realsense"

  /** Path on which game-engine consumers connect. */
  const ConsumerPath: string := "/ws/unity"

  /** The three outcomes of an upgrade request. */
  datatype Dispatch =
    | ToProducer   // handed to the producer server's handshake
    | ToConsumer   // handed to the consumer server's handshake
    | Reject       // the raw socket is destroyed, no handshake

  /**
   * Routing of one upgrade request by its raw request target `url`
   * (path and query string, exactly as received).
   */
  function Route(url: string): (d: Dispatch)
    ensures d == ToProducer <==> url == ProducerPath
    ensures d == ToConsumer <==> url == ConsumerPath
    ensures d == Reject <==> url != ProducerPath && url != ConsumerPath
  {
    if url == ProducerPath then ToProducer
    else if url == ConsumerPath then ToConsumer
    else Reject
  }

  /**
   * The match is exact, not a prefix match: anything appended to either
   * path (a query string, a trailing slash, a sub-path) is rejected.
   */
  lemma ExtendedPathRejected(suffix: string)
    requires suffix != []
    ensures Route(ProducerPath + suffix) == Reject
    ensures Route(ConsumerPath + suffix) == Reject
  {
    assert (ProducerPath + suffix)[4] == 'r';
    assert (ConsumerPath + suffix)[4] == 'u';
    assert |ProducerPath + suffix| != |ProducerPath|;
    assert |ConsumerPath + suffix| != |ConsumerPath|;
  }
}
