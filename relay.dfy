/**
 * The relay proper: the consumer registry (a set of live consumer
 * connections updated in place by the accept and close handlers), the
 * producer message handler that fans each frame out to the open members,
 * and the upgrade handler that feeds both.
 */
module Bridge {
  import opened Wire
  import opened Router
  import opened Trace

  /**
   * An accepted WebSocket connection, as the relay sees it: its transport
   * state and what has been handed to it for sending, oldest first.
   */
  class Connection {
    var readyState: ReadyState
    var outbox: seq<Frame>

    /** A connection whose handshake has just completed. */
    constructor Accepted()
      ensures readyState == Open && outbox == []
    {
      readyState := Open;
      outbox := [];
    }

    /** Hands one frame to the transport, keeping its binary/text flag. */
    method Send(f: Frame)
      modifies this`outbox
      ensures outbox == old(outbox) + [f]
    {
      outbox := outbox + [f];
    }

    /**
     * The transport moves to a later state on its own (closing handshake,
     * peer gone, network error); states only ever advance, CONNECTING to
     * OPEN to CLOSING to CLOSED, possibly skipping some. The relay never
     * does this itself.
     */
    method Transition(s: ReadyState)
      requires Code(readyState) < Code(s)
      modifies this`readyState
      ensures readyState == s
    {
      readyState := s;
    }
  }

  class Relay {
    /** The live consumer connections. */
    var consumers: set<Connection>

    /** Every handler invocation that touched the registry, in order. */
    ghost var history: seq<Event<Connection>>
    /** Every connection accepted on the consumer path. */
    ghost var accepted: set<Connection>
    /** Every connection accepted on the producer path. */
    ghost var producers: set<Connection>

    /**
     * The registry is the replay of its history, only consumer connections
     * are ever members, and each consumer connection has been handed
     * exactly the frames broadcast while it was a member and open.
     * (The triggers keep callers from unrolling the history functions;
     * ConsumersAreNetEffect states the first two conjuncts as one.)
     */
    ghost predicate Valid()
      reads this, accepted`outbox
    {
      && (forall c {:trigger c in Members(history)} :: c in consumers ==> c in Members(history))
      && (forall c {:trigger c in Members(history)} :: c in Members(history) ==> c in consumers)
      && Joined(history) <= accepted
      && accepted !! producers
      && (forall c {:trigger Inbox(history, c)} :: c in accepted ==> c.outbox == Inbox(history, c))
    }

    constructor ()
      ensures Valid()
      ensures consumers == {} && history == [] && accepted == {} && producers == {}
    {
      consumers := {};
      history := [];
      accepted := {};
      producers := {};
    }

    /**
     * The live set is exactly the replay of the joins and leaves so far:
     * the connections that joined and have not left since.
     */
    lemma ConsumersAreNetEffect()
      requires Valid()
      ensures consumers == Members(history)
      ensures forall c :: c in consumers <==> JoinedAndNotLeft(history, c)
    {
      forall c ensures c in consumers <==> JoinedAndNotLeft(history, c) {
        MembersAreNetEffect(history, c);
        assert c in Members(history) <==> c in consumers;
      }
    }

    /** No producer connection is ever a consumer. */
    lemma NoProducerIsConsumer()
      requires Valid()
      ensures consumers !! producers
    {
    }

    /** A consumer's handshake completed: it joins the set. */
    method ConsumerConnect(ws: Connection)
      requires Valid() && ws in accepted
      modifies this`consumers, this`history
      ensures Valid()
      ensures consumers == old(consumers) + {ws}
      ensures history == old(history) + [Join(ws)]
    {
      AppendEvent(history, Join(ws));
      history := history + [Join(ws)];
      consumers := consumers + {ws};
    }

    /**
     * A consumer's `close` event: that connection, and only it, leaves the
     * set. A connection that is not a member leaves the set as it was.
     */
    method ConsumerClose(ws: Connection)
      requires Valid()
      modifies this`consumers, this`history
      ensures Valid()
      ensures consumers == old(consumers) - {ws}
      ensures ws !in old(consumers) ==> consumers == old(consumers)
      ensures history == old(history) + [Leave(ws)]
    {
      AppendEvent(history, Leave(ws));
      history := history + [Leave(ws)];
      consumers := consumers - {ws};
    }

    /**
     * The consumers that pass the handler's `readyState === OPEN` test
     * right now: exactly the members whose state is Open.
     */
    ghost function OpenConsumers(): (r: set<Connection>)
      reads this, consumers`readyState
      ensures r <= consumers
      ensures forall c :: c in consumers ==> (c in r <==> c.readyState == Open)
    {
      set c | c in consumers && Code(c.readyState) == 1
    }

    /**
     * The loop of the producer's `message` handler: every member whose
     * readyState is OPEN is handed `f`, every other member is skipped.
     * Nothing else changes: not the set, not any readyState, not the
     * outbox of a connection outside the set.
     */
    method SendToOpenConsumers(f: Frame)
      modifies consumers`outbox
      ensures forall c :: c in consumers ==>
                c.outbox == if c.readyState == Open then old(c.outbox) + [f] else old(c.outbox)
    {
      var pending := consumers;
      while pending != {}
        invariant pending <= consumers
        invariant forall c :: c in consumers ==>
                    c.outbox == if c !in pending && c.readyState == Open then old(c.outbox) + [f]
                                else old(c.outbox)
        decreases pending
      {
        var client :| client in pending;
        if Code(client.readyState) == 1 {
          client.Send(f);
        }
        pending := pending - {client};
      }
    }

    /**
     * A producer sent `data` with flag `isBinary`: the frame, unchanged,
     * goes to every open member and to no one else, and the set itself is
     * not touched.
     */
    method ProducerMessage(data: seq<byte>, isBinary: bool)
      requires Valid()
      modifies this`history, consumers`outbox
      ensures Valid()
      ensures consumers == old(consumers)
      ensures history == old(history) + [Broadcast(Frame(data, isBinary), old(OpenConsumers()))]
      ensures forall c :: c in consumers ==>
                c.outbox == if c.readyState == Open then old(c.outbox) + [Frame(data, isBinary)]
                            else old(c.outbox)
      ensures forall c :: c in accepted + producers && c !in consumers ==> c.outbox == old(c.outbox)
    {
      var f := Frame(data, isBinary);
      ghost var open := OpenConsumers();
      SendToOpenConsumers(f);
      AppendEvent(history, Broadcast(f, open));
      history := history + [Broadcast(f, open)];
      forall c | c in accepted ensures c.outbox == Inbox(history, c) {
        if c in consumers {
          assert c in open <==> c.readyState == Open;
        } else {
          assert c !in Members(old(history));
        }
      }
    }

    /** A producer's `close` event: only logged, the registry is untouched. */
    method ProducerClose(ws: Connection)
      requires Valid()
      ensures Valid()
      ensures consumers == old(consumers) && history == old(history)
    {
    }

    /**
     * An HTTP upgrade request for `url`. The producer path yields a new
     * producer connection and leaves the set alone; the consumer path yields
     * a new consumer connection that joins the set; anything else destroys
     * the socket and yields no connection.
     */
    method Upgrade(url: string) returns (d: Dispatch, ws: Connection?)
      requires Valid()
      modifies this
      ensures Valid()
      ensures d == Route(url)
      ensures d == Reject ==>
                ws == null && consumers == old(consumers) && history == old(history)
                && accepted == old(accepted) && producers == old(producers)
      ensures d == ToProducer ==>
                ws != null && fresh(ws) && ws.readyState == Open && ws.outbox == []
                && producers == old(producers) + {ws} && accepted == old(accepted)
                && consumers == old(consumers) && history == old(history)
      ensures d == ToConsumer ==>
                ws != null && fresh(ws) && ws.readyState == Open && ws.outbox == []
                && accepted == old(accepted) + {ws} && producers == old(producers)
                && consumers == old(consumers) + {ws} && history == old(history) + [Join(ws)]
    {
      d := Route(url);
      if d == ToProducer {
        ws := new Connection.Accepted();
        producers := producers + {ws};
      } else if d == ToConsumer {
        ws := new Connection.Accepted();
        NeverJoinedGetsNothing(history, ws);
        accepted := accepted + {ws};
        ConsumerConnect(ws);
      } else {
        ws := null;
      }
    }
  }

  /**
   * The opening of the scenario below: a producer and two consumers
   * connect, and an upgrade to any other path is turned away.
   */
  method ConnectProducerAndTwoConsumers() returns (relay: Relay, p: Connection, c1: Connection, c2: Connection)
    ensures relay.Valid() && fresh(relay) && fresh(p) && fresh(c1) && fresh(c2)
    ensures relay.consumers == {c1, c2} && c1 != c2 && p != c1 && p != c2
    ensures c1.readyState == Open && c2.readyState == Open
    ensures c1.outbox == [] && c2.outbox == [] && p.outbox == []
    ensures relay.producers == {p} && p.readyState == Open
  {
    relay := new Relay();
    var d, p' := relay.Upgrade("/ws/realsense");
    assert d == ToProducer;
    p := p';
    var d1, c1' := relay.Upgrade("/ws/unity");
    assert d1 == ToConsumer;
    c1 := c1';
    var d2, c2' := relay.Upgrade("/ws/unity");
    assert d2 == ToConsumer;
    c2 := c2';
    var d3, none := relay.Upgrade("/ws/unity?room=1");
    assert d3 == Reject && none == null;
    relay.NoProducerIsConsumer();
  }

  /**
   * A client of the relay: a binary frame reaches both consumers, the
   * first consumer's transport closes and its `close` event fires (twice),
   * and a text frame then reaches only the second consumer. The producer
   * is handed nothing.
   */
  method EndToEnd()
  {
    var relay, p, c1, c2 := ConnectProducerAndTwoConsumers();
    var binary := Frame([1, 2], true);
    relay.ProducerMessage([1, 2], true);
    assert c1.outbox == [binary] && c2.outbox == [binary] && p.outbox == [];

    c1.Transition(Closed);
    relay.ConsumerClose(c1);
    relay.ConsumerClose(c1);
    assert relay.consumers == {c2};

    var text := Frame([104, 101, 108, 108, 111], false);
    relay.ProducerMessage([104, 101, 108, 108, 111], false);
    assert c1.outbox == [binary];
    assert c2.outbox == [binary, text];
    assert p.outbox == [];
  }
}
