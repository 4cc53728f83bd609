/**
 * A value-level account of the consumer registry: the sequence of handler
 * invocations the relay has seen, the consumer set it leads to, and the
 * frames each connection has been handed. The `Relay` class keeps its
 * state equal to these functions of its history.
 */
module Trace {
  import opened Wire

  /** One handler invocation, in the order the event loop ran them. */
  datatype Event<C> =
    | Join(conn: C)                          // consumer accepted: the set gains `conn`
    | Leave(conn: C)                         // consumer `close` event: the set loses `conn`
    | Broadcast(frame: Frame, open: set<C>)  // producer message; `open` holds the consumers
                                             // whose readyState was OPEN at that moment

  /**
   * The effect of one event on the consumer set: a join makes its
   * connection a member, a leave makes it a non-member, and no other
   * connection's membership changes; a broadcast changes nothing.
   */
  function Step<C>(members: set<C>, e: Event<C>): (r: set<C>)
    ensures e.Broadcast? ==> r == members
    ensures !e.Broadcast? ==> (e.conn in r <==> e.Join?) && r - {e.conn} == members - {e.conn}
  {
    match e
    case Join(c) => members + {c}
    case Leave(c) => members - {c}
    case Broadcast(_, _) => members
  }

  /** Every connection that some `Join` of `h` names. */
  ghost function Joined<C>(h: seq<Event<C>>): set<C>
  {
    set i | 0 <= i < |h| && h[i].Join? :: h[i].conn
  }

  /** The consumer set after replaying `h` from the empty set. */
  function Members<C>(h: seq<Event<C>>): (r: set<C>)
    ensures r <= Joined(h)
  {
    if h == [] then {}
    else
      var p := h[..|h| - 1];
      assert Joined(p) <= Joined(h) by {
        forall c | c in Joined(p) ensures c in Joined(h) {
          var i :| 0 <= i < |p| && p[i].Join? && p[i].conn == c;
          assert h[i] == p[i];
        }
      }
      Step(Members(p), h[|h| - 1])
  }

  /**
   * Declarative membership: `c` was joined at some point and no `Leave`
   * for `c` came after that join.
   */
  ghost predicate JoinedAndNotLeft<C>(h: seq<Event<C>>, c: C)
  {
    exists i :: 0 <= i < |h| && h[i] == Join(c) && NoLeaveAfter(h, c, i)
  }

  ghost predicate NoLeaveAfter<C>(h: seq<Event<C>>, c: C, i: nat)
  {
    forall j :: i < j < |h| ==> h[j] != Leave(c)
  }

  /**
   * Replaying any history of joins, leaves and broadcasts gives exactly the
   * connections that joined and have not left since.
   */
  lemma {:induction false} MembersAreNetEffect<C>(h: seq<Event<C>>, c: C)
    ensures c in Members(h) <==> JoinedAndNotLeft(h, c)
  {
    if h != [] {
      var p, e := h[..|h| - 1], h[|h| - 1];
      MembersAreNetEffect(p, c);
      if e == Join(c) {
        assert NoLeaveAfter(h, c, |h| - 1);
      } else if e == Leave(c) {
        forall i | 0 <= i < |h| && h[i] == Join(c) ensures !NoLeaveAfter(h, c, i) {
          assert h[|h| - 1] == Leave(c);
        }
      } else {
        if JoinedAndNotLeft(p, c) {
          var i :| 0 <= i < |p| && p[i] == Join(c) && NoLeaveAfter(p, c, i);
          assert h[i] == Join(c) && NoLeaveAfter(h, c, i);
        }
        if JoinedAndNotLeft(h, c) {
          var i :| 0 <= i < |h| && h[i] == Join(c) && NoLeaveAfter(h, c, i);
          assert p[i] == Join(c) && NoLeaveAfter(p, c, i);
        }
      }
    }
  }

  /** The frame (if any) the last event of a non-empty history hands to `c`. */
  function LastDelivery<C>(h: seq<Event<C>>, c: C): seq<Frame>
    requires h != []
  {
    match h[|h| - 1]
    case Broadcast(f, open) =>
      if c in Members(h[..|h| - 1]) && c in open then [f] else []
    case _ => []
  }

  /**
   * The frames `c` has been handed over the history `h`, oldest first:
   * one per broadcast during which `c` was a member and open.
   */
  function Inbox<C>(h: seq<Event<C>>, c: C): (r: seq<Frame>)
    ensures |r| <= |Sent(h)|
  {
    if h == [] then [] else Inbox(h[..|h| - 1], c) + LastDelivery(h, c)
  }

  /** All frames ever broadcast, in arrival order. */
  function Sent<C>(h: seq<Event<C>>): (r: seq<Frame>)
    ensures |r| <= |h|
  {
    if h == [] then []
    else Sent(h[..|h| - 1]) + (if h[|h| - 1].Broadcast? then [h[|h| - 1].frame] else [])
  }

  /** `a` is `b` with some elements left out, the rest in their order. */
  predicate Subsequence<T(==)>(a: seq<T>, b: seq<T>)
  {
    if a == [] then true
    else if b == [] then false
    else (a[|a| - 1] == b[|b| - 1] && Subsequence(a[..|a| - 1], b[..|b| - 1]))
         || Subsequence(a, b[..|b| - 1])
  }

  /** What appending one event does to each function of the history. */
  lemma AppendEvent<C>(h: seq<Event<C>>, e: Event<C>)
    ensures Members(h + [e]) == Step(Members(h), e)
    ensures Joined(h + [e]) == if e.Join? then Joined(h) + {e.conn} else Joined(h)
    ensures forall c :: Inbox(h + [e], c) ==
              Inbox(h, c) + (if e.Broadcast? && c in Members(h) && c in e.open then [e.frame] else [])
  {
  }

  /** A connection that never joined has been handed nothing. */
  lemma {:induction false} NeverJoinedGetsNothing<C>(h: seq<Event<C>>, c: C)
    requires c !in Joined(h)
    ensures Inbox(h, c) == []
  {
    if h != [] {
      var p := h[..|h| - 1];
      assert Joined(p) <= Joined(h) by {
        forall x | x in Joined(p) ensures x in Joined(h) {
          var i :| 0 <= i < |p| && p[i].Join? && p[i].conn == x;
          assert h[i] == p[i];
        }
      }
      NeverJoinedGetsNothing(p, c);
    }
  }

  /**
   * No reordering, no duplication: every connection sees a subsequence of
   * the broadcast stream, in the order the frames arrived.
   */
  lemma {:induction false} InboxIsSubsequenceOfSent<C>(h: seq<Event<C>>, c: C)
    ensures Subsequence(Inbox(h, c), Sent(h))
  {
    if h != [] {
      var p := h[..|h| - 1];
      InboxIsSubsequenceOfSent(p, c);
      if h[|h| - 1].Broadcast? {
        var s := Sent(p) + [h[|h| - 1].frame];
        assert s[..|s| - 1] == Sent(p);
        if LastDelivery(h, c) != [] {
          var i := Inbox(p, c) + LastDelivery(h, c);
          assert i[..|i| - 1] == Inbox(p, c);
        } else {
          SubsequenceOfLonger(Inbox(p, c), Sent(p), h[|h| - 1].frame);
          assert Inbox(h, c) == Inbox(p, c) && Sent(h) == s;
        }
      } else {
        assert Inbox(h, c) == Inbox(p, c) && Sent(h) == Sent(p);
      }
    }
  }

  lemma {:induction false} SubsequenceOfLonger<T>(a: seq<T>, b: seq<T>, x: T)
    requires Subsequence(a, b)
    ensures Subsequence(a, b + [x])
  {
  }

  /** Each event only ever appends to a connection's inbox. */
  lemma {:induction false} InboxOnlyGrows<C>(h: seq<Event<C>>, k: nat, c: C)
    requires k <= |h|
    ensures Inbox(h[..k], c) <= Inbox(h, c)
  {
    if k < |h| {
      var p := h[..|h| - 1];
      assert p[..k] == h[..k];
      InboxOnlyGrows(p, k, c);
    } else {
      assert h[..k] == h;
    }
  }

  /**
   * Once `c` has left, and as long as it does not join again, no later
   * broadcast hands it anything.
   */
  lemma {:induction false} NothingAfterLeave<C>(h: seq<Event<C>>, i: nat, c: C)
    requires i < |h| && h[i] == Leave(c)
    requires forall j :: i < j < |h| ==> h[j] != Join(c)
    ensures c !in Members(h)
    ensures Inbox(h, c) == Inbox(h[..i + 1], c)
  {
    if |h| == i + 1 {
      assert h[..i + 1] == h;
    } else {
      var p := h[..|h| - 1];
      assert p[i] == Leave(c);
      NothingAfterLeave(p, i, c);
      assert p[..i + 1] == h[..i + 1];
    }
  }

  /**
   * Two broadcasts in a row reach a connection that is a member and open
   * for both, in the order they were received.
   */
  lemma SuccessiveBroadcastsInOrder<C>(h: seq<Event<C>>, c: C, f1: Frame, o1: set<C>, f2: Frame, o2: set<C>)
    requires c in Members(h) && c in o1 && c in o2
    ensures Inbox(h + [Broadcast(f1, o1), Broadcast(f2, o2)], c) == Inbox(h, c) + [f1, f2]
  {
    var h1 := h + [Broadcast(f1, o1)];
    var h2 := h1 + [Broadcast(f2, o2)];
    assert h1[..|h1| - 1] == h;
    assert h2[..|h2| - 1] == h1;
    assert h + [Broadcast(f1, o1), Broadcast(f2, o2)] == h2;
  }

  /**
   * Joining twice is the same as joining once: the set has no duplicate,
   * so a later broadcast hands `c` at most one copy.
   */
  lemma DoubleJoinDeliversOnce<C>(h: seq<Event<C>>, c: C, f: Frame, o: set<C>)
    requires c in o
    ensures Members(h + [Join(c), Join(c)]) == Members(h + [Join(c)])
    ensures Inbox(h + [Join(c), Join(c), Broadcast(f, o)], c) == Inbox(h, c) + [f]
  {
    var h1 := h + [Join(c)];
    var h2 := h1 + [Join(c)];
    var h3 := h2 + [Broadcast(f, o)];
    assert h1[..|h1| - 1] == h;
    assert h2[..|h2| - 1] == h1;
    assert h3[..|h3| - 1] == h2;
    assert c in Members(h2);
    assert Inbox(h2, c) == Inbox(h, c);
    assert h + [Join(c), Join(c)] == h2;
    assert h + [Join(c), Join(c), Broadcast(f, o)] == h3;
  }

  /**
   * Leaving when not a member, including a second `close` for the same
   * connection, changes neither the set nor anyone's inbox.
   */
  lemma LeaveOfNonMemberIsNoOp<C>(h: seq<Event<C>>, c: C, d: C)
    requires c !in Members(h)
    ensures Members(h + [Leave(c)]) == Members(h)
    ensures Inbox(h + [Leave(c)], d) == Inbox(h, d)
  {
  }
}
