# RealSense → Unity WebSocket bridge: the relay core

The bridge accepts two kinds of WebSocket connections on one HTTP server.
A depth-camera producer connects on `/ws/realsense` and sends frames.
Game-engine consumers connect on `/ws/unity` and receive them. This model
covers the three parts of `index.js` that carry logic:

- the consumer registry `unityClients`, a `Set` that the consumer
  `connection` handler adds to and the consumer `close` handler deletes from;
- the producer `message` handler, which relays each message unchanged
  (payload and binary/text flag) to every member whose `readyState` is
  `OPEN` and skips the rest;
- the `upgrade` router, which hands a request to the producer server or to
  the consumer server by exact comparison of `req.url`, and otherwise
  destroys the socket.

Files:

- `wire.dfy` (module `Wire`): a frame (`seq<byte>` plus `isBinary`) and the
  four `readyState` values.
- `router.dfy` (module `Router`): the two paths and `Route`, a pure function
  with three outcomes.
- `trace.dfy` (module `Trace`): a value-level reference model. It holds the
  history of handler calls (`Join`, `Leave`, `Broadcast`), the set that
  replaying it gives (`Members`), and the frames each connection has been
  handed (`Inbox`). Lemmas state net-effect membership, no delivery after
  leave, in-order subsequence delivery, idempotent joins and leaves.
  `AppendEvent` is a helper for the `Relay` proofs: it unfolds these
  functions once at a history extended by one event.
- `relay.dfy` (module `Bridge`): `Connection` is a class with `readyState`
  and an `outbox`. `Relay` is a class whose `consumers` set is updated in
  place. Its handlers are `ConsumerConnect`, `ConsumerClose`,
  `ProducerMessage` (the broadcast loop) and `ProducerClose`. `Upgrade`
  routes a request and runs the matching handler. `Relay.Valid()` ties the
  live set and every consumer's outbox to the `Trace` functions of a ghost
  history. Every handler keeps it.

What the model does not capture is listed under "## Left out".

## Model

| member | source | states |
|---|---|---|
| `Wire.Code` | index.js:40 | the numeric `readyState` is below 4, and it equals `WebSocket.OPEN` (1) exactly when the state is Open |
| `Router.Route` | index.js:63-75 | a request goes to the producer server iff its url is exactly `/ws/realsense`; to the consumer server iff exactly `/ws/unity`; it is rejected (socket destroyed) iff it is neither |
| `Router.ExtendedPathRejected` | index.js:64-68 | the comparison is exact: either path followed by anything (query string, slash, sub-path) is rejected |
| `Trace.Step` | index.js:54-57 | the effect of one handler on the set: `add` makes its connection a member and `delete` makes it a non-member, with no other connection's membership changed; a broadcast leaves the set as it is |
| `Trace.Members` | index.js:52-57 | the set obtained by replaying adds and deletes only ever holds connections that were added at some point |
| `Trace.MembersAreNetEffect` | index.js:52-57 | for every history of adds, deletes and broadcasts, a connection is in the replayed set iff it was added and not deleted since |
| `Trace.Sent` | index.js:37 | the frames of the producers' `message` events, one per event and in arrival order; its contract only bounds the stream by the number of events |
| `Trace.Inbox` | index.js:39-41 | the frames a connection is handed, defined by the rule that a broadcast hands it the frame iff the connection was in the set before that event and OPEN at that moment; its contract: never more frames than were broadcast. That those frames are a subsequence of the broadcast stream, with no duplicate and no reordering, is `Trace.InboxIsSubsequenceOfSent` |
| `Trace.NeverJoinedGetsNothing` | index.js:39-42 | a connection that never joined the set (a producer, say) is handed no frame |
| `Trace.InboxIsSubsequenceOfSent` | index.js:37-43 | what any connection is handed is a subsequence of the broadcast stream, in arrival order, with no duplicate and no reordering |
| `Trace.InboxOnlyGrows` | index.js:37-43 | a later history only appends to what a connection was handed before |
| `Trace.NothingAfterLeave` | index.js:39-57 | after a connection's `close` handler ran, and while it has not joined again, it is not a member and no later broadcast hands it anything |
| `Trace.SuccessiveBroadcastsInOrder` | index.js:37-43 | two successive messages F1, F2 reach a member that is open for both as `F1` then `F2` |
| `Trace.DoubleJoinDeliversOnce` | index.js:54 | adding the same connection twice gives the same set as adding it once, and a following broadcast hands it one copy |
| `Trace.LeaveOfNonMemberIsNoOp` | index.js:57 | deleting a connection that is not a member (a second `close` included) changes neither the set nor any connection's inbox |
| `Bridge.Connection.Send` | index.js:41 | sending appends exactly the given frame, flag included, to that connection's outbox |
| `Bridge.Relay.constructor` | index.js:31 | the registry starts empty, with an empty history |
| `Bridge.Relay.ConsumersAreNetEffect` | index.js:31-57 | the live set equals the replay of the history, that is, the connections that joined and have not left |
| `Bridge.Relay.NoProducerIsConsumer` | index.js:52-54 | no connection accepted on the producer path is ever in the consumer set |
| `Bridge.Relay.ConsumerConnect` | index.js:52-54 | the connection is a member afterwards, no other member is added or removed, and the invariant holds |
| `Bridge.Relay.ConsumerClose` | index.js:56-59 | exactly that connection is removed, every other member stays, and closing a non-member leaves the set unchanged without error |
| `Bridge.Relay.OpenConsumers` | index.js:40 | the members passing the `readyState === WebSocket.OPEN` test are exactly the members whose state is Open |
| `Bridge.Relay.SendToOpenConsumers` | index.js:39-43 | each member whose readyState is OPEN gets the frame appended once, and every other member's outbox is unchanged |
| `Bridge.Relay.ProducerMessage` | index.js:37-44 | the frame `(data, isBinary)` is appended unchanged to exactly the open members. Non-open members, producers and former members get nothing. The set is unchanged, and the history records the broadcast with its open recipients |
| `Bridge.Relay.ProducerClose` | index.js:46-48 | a producer's close leaves the consumer set and the history untouched |
| `Bridge.Relay.Upgrade` | index.js:63-75 | the outcome is `Route(url)`. The producer path yields a fresh open connection and leaves the set alone. The consumer path yields a fresh open connection that joins the set. Any other path yields no connection and changes nothing |
| `Bridge.ConnectProducerAndTwoConsumers` | index.js:63-75 | routing `/ws/realsense`, `/ws/unity` twice and `/ws/unity?room=1` gives exactly one open, empty producer (the relay's only producer connection) and exactly two distinct, open, empty consumers, none of them the producer |

`Bridge.EndToEnd` is a verified client with no contract. In it, a binary
frame `01 02` reaches both consumers. The first consumer's transport then
closes and its `close` handler runs twice. After that, the text frame
`hello` reaches only the second consumer, and the producer is handed
nothing.

## Left out

- Express setup, the CORS middleware and the `/ping` route (index.js:11-23): HTTP plumbing with no relay logic.
- `http.createServer`, `server.listen` and the `PORT` fallback to 3001 (index.js:12, 77-81): process and I/O configuration.
- The `ws` library: the handshake of RFC 6455 section 4, the framing of section 5, and `handleUpgrade`/`emit` (index.js:27-29, 65-70). Its code is not part of this model. `Upgrade` assumes that the handshake on an accepted path succeeds. `Connection.Accepted` stands for the socket it yields.
- `Connection.Send` is an append to an abstract outbox. Real sending, buffering and backpressure are not modelled, and neither is what `ws` does on a send to a socket that is not open (the source never does that).
- `Connection.Transition` stands for the transport changing `readyState` by itself (closing handshake, peer or network loss). It only moves the state forward. The relay never calls it.
- Iteration order of the set: a JavaScript `Set` iterates in insertion order, while the broadcast loop here visits members in an arbitrary order. Each consumer has its own outbox, so no postcondition depends on the order across consumers. The order in which different consumers are written to is not modelled.
- `socket.destroy()` on a rejected upgrade: recorded only as the `Reject` outcome and the absence of a connection.
- `console.log` calls: logging only.
- Event-loop scheduling and concurrent join/leave during a broadcast. Each handler is one atomic step, as it is in Node's single-threaded event loop.
- `ProducerMessage` does not take the producer connection. The source's handler never uses it, and every producer's messages go through the same loop.
