/** The objects behind ClientQueue and Delivery (internal/proxy/api/server.go), each method
    proved to take the steps those models describe when nobody interferes. */
module ProxyServer {
  import opened ClientQueue
  import Hub = Delivery

  /** enqueue in one go: the append, then the nudge unless the client was or became closed. */
  function Enqueued(c: Client, m: Msg): Client {
    var d := Append(c, m);
    if d.closed then d else Nudge(d)
  }

  function EnqueuedAll(c: Client, ms: seq<Msg>): Client
    decreases |ms|
  {
    if ms == [] then c else Enqueued(EnqueuedAll(c, ms[..|ms| - 1]), ms[|ms| - 1])
  }

  /** n messages of the batch in hand have been written. */
  function Written(c: Client, n: nat): Client
    requires n <= |c.hand|
  {
    c.(hand := c.hand[n..], sent := c.sent + c.hand[..n],
       writer := if 0 < n == |c.hand| then Top else c.writer)
  }

  /** That is n steps of the writer. */
  lemma {:induction false} WrittenIsSteps(c: Client, n: nat)
    requires c.writer == Writing && 0 < n <= |c.hand|
    ensures Enabled(Written(c, n - 1), WriteOk)
    ensures Written(c, n) == ClientQueue.Step(Written(c, n - 1), WriteOk)
  {
    assert c.hand[..n] == c.hand[..n - 1] + [c.hand[n - 1]];
    assert c.sent + c.hand[..n - 1] + [c.hand[n - 1]] == c.sent + c.hand[..n];
  }

  class WsClient {
    var queue: seq<Msg>
    var closed: bool
    var wake: bool
    ghost var writer: Writer
    ghost var hand: seq<Msg>
    ghost var sent: seq<Msg>
    ghost var accepted: seq<Msg>

    /** The connection as ClientQueue sees it, between calls. */
    ghost function View(): Client
      reads this
    {
      Client(queue, closed, wake, 0, writer, hand, sent, accepted)
    }

    constructor ()
      ensures View() == FRESH
    {
      queue, closed, wake := [], false, false;
      writer, hand, sent, accepted := Unstarted, [], [], [];
    }

    method Enqueue(msg: Msg)
      modifies this
      ensures View() == Enqueued(old(View()), msg)
    {
      if closed {
        return;
      }
      queue := queue + [msg];
      accepted := accepted + [msg];
      var overflow := |queue| > MAX_CLIENT_BACKLOG;
      if overflow {
        closed := true;
        queue := [];
      }
      if overflow {
        return;
      }
      wake := true;
    }

    method ShutDown()
      modifies this
      ensures View() == Nudge(Close(old(View())))
    {
      closed := true;
      queue := [];
      wake := true;
    }

    /** One pass of writeLoop: take the queue, write until `writable` messages have gone
        through. more tells whether the loop goes round again without waiting; exit that the
        writer returns. */
    method WritePass(writable: nat) returns (more: bool, exit: bool)
      requires writer == Top
      modifies this
      ensures var d := Take(old(View()));
              var n := if writable < |d.hand| then writable else |d.hand|;
              && more == (d.hand != [] && n == |d.hand|)
              && exit == (if d.hand == [] then d.closed else n < |d.hand|)
              && View() == if exit && d.hand != [] then ClientQueue.Step(Written(d, n), WriteFailed) else Written(d, n)
      ensures (exit <==> writer == Stopped) && (more <==> writer == Top) && (!more && !exit <==> writer == Parked)
      ensures exit ==> closed || writable < |old(queue)|
    {
      var batch := queue;
      queue := [];
      var wasClosed := closed;
      hand := batch;
      writer := if batch != [] then Writing else if wasClosed then Stopped else Parked;
      var i := 0;
      while i < |batch|
        invariant i <= |batch| && i <= writable
        invariant hand == batch[i..] && sent == old(sent) + batch[..i]
        invariant writer == if 0 < i == |batch| then Top else if batch == [] then writer else Writing
        invariant batch == [] ==> writer == if wasClosed then Stopped else Parked
        invariant queue == [] && closed == wasClosed == old(closed) && wake == old(wake) && accepted == old(accepted)
      {
        if i == writable {
          writer := Stopped;
          return false, true;
        }
        sent := sent + [batch[i]];
        hand := hand[1..];
        if |hand| == 0 {
          writer := Top;
        }
        i := i + 1;
      }
      if |batch| > 0 {
        return true, false;
      }
      return false, wasClosed;
    }
  }

  class Session {
    var nextMsgID: nat
    var eventBuf: seq<Msg>
    var lastSeenID: nat
    var subscribers: set<WsClient>

    constructor ()
      ensures nextMsgID == 0 && eventBuf == [] && lastSeenID == 0 && subscribers == {}
    {
      nextMsgID, eventBuf, lastSeenID, subscribers := 0, [], 0, {};
    }

    method AssignID(kind: string, body: string) returns (msg: Msg)
      modifies this`nextMsgID
      ensures nextMsgID == old(nextMsgID) + 1 && msg == Msg(nextMsgID, kind, body)
    {
      nextMsgID := nextMsgID + 1;
      msg := Msg(nextMsgID, kind, body);
    }

    /** Every subscriber is offered the message once, whatever the map order. */
    method Broadcast(msg: Msg)
      modifies subscribers
      ensures forall c :: c in subscribers ==> c.View() == Enqueued(old(c.View()), msg)
    {
      var left := subscribers;
      while left != {}
        invariant left <= subscribers
        invariant forall c :: c in left ==> c.View() == old(c.View())
        invariant forall c :: c in subscribers && c !in left ==> c.View() == Enqueued(old(c.View()), msg)
        decreases left
      {
        var client :| client in left;
        client.Enqueue(msg);
        left := left - {client};
      }
    }

    method Publish(kind: string, body: string) returns (msg: Msg)
      modifies this`nextMsgID, this`eventBuf, subscribers
      ensures nextMsgID == old(nextMsgID) + 1 && msg == Msg(nextMsgID, kind, body)
      ensures eventBuf == if Hub.Bufferable(kind) then Hub.Capped(old(eventBuf) + [msg]) else old(eventBuf)
      ensures forall c :: c in subscribers ==> c.View() == Enqueued(old(c.View()), msg)
    {
      msg := AssignID(kind, body);
      if Hub.Bufferable(kind) {
        eventBuf := eventBuf + [msg];
        if |eventBuf| > Hub.MAX_EVENT_BUF {
          eventBuf := eventBuf[|eventBuf| - Hub.MAX_EVENT_BUF..];
        }
      }
      Broadcast(msg);
    }

    /** handleWS up to the start of the writer: subscribe, then replay the ring to a client of
        a session nobody has reported a last-seen id for. */
    method Attach(client: WsClient)
      modifies this`subscribers, client
      ensures subscribers == old(subscribers) + {client}
      ensures client.View() == EnqueuedAll(old(client.View()), if lastSeenID == 0 then eventBuf else [])
    {
      subscribers := subscribers + {client};
      if lastSeenID == 0 {
        var snapshot := eventBuf;
        var i := 0;
        while i < |snapshot|
          invariant i <= |snapshot| && snapshot == eventBuf
          invariant client.View() == EnqueuedAll(old(client.View()), snapshot[..i])
          invariant subscribers == old(subscribers) + {client}
        {
          client.Enqueue(snapshot[i]);
          assert snapshot[..i + 1][..i] == snapshot[..i];
          i := i + 1;
        }
        assert snapshot[..i] == eventBuf;
      }
    }

    method Detach(client: WsClient)
      modifies this`subscribers, client
      ensures subscribers == old(subscribers) - {client}
      ensures client.View() == Nudge(Close(old(client.View())))
    {
      subscribers := subscribers - {client};
      client.ShutDown();
    }

    /** The mark only moves forward, whatever stale report arrives; LastSeen has the race. */
    method AdvanceLastSeen(id: int)
      modifies this`lastSeenID
      ensures lastSeenID == if id <= old(lastSeenID) then old(lastSeenID) else id
    {
      if id <= lastSeenID {
        return;
      }
      lastSeenID := id;
    }
  }

  /** A client that has not been written to yet, after ms was enqueued to it. */
  predicate Backlogged(c: Client, ms: seq<Msg>) {
    && c.nudgers == 0
    && if |ms| <= 5000 then c.queue == ms && c.accepted == ms && !c.closed && c.writer == Unstarted
       else c.closed && c.queue == [] && c.accepted == ms[..5001]
  }

  lemma OneMoreBacklogged(c: Client, ms: seq<Msg>, m: Msg)
    requires Backlogged(c, ms)
    ensures Backlogged(Enqueued(c, m), ms + [m])
  {
  }

  /** Attaching to a session leaves the client connected, with the whole ring queued in order: a ring
      holds no more than a client may have queued, and the bound is 5000 for both. */
  lemma RingFitsBacklog(ring: seq<Msg>)
    requires |ring| <= Hub.MAX_EVENT_BUF
    ensures var c := EnqueuedAll(FRESH, ring);
      !c.closed && c.queue == ring && c.accepted == ring && c.writer == Unstarted && (ring != [] ==> c.wake)
  {
    ReplayDelivers(ring);
    ReplayWakes(ring);
  }

  lemma {:induction false} ReplayWakes(ms: seq<Msg>)
    ensures ms != [] && !EnqueuedAll(FRESH, ms).closed ==> EnqueuedAll(FRESH, ms).wake
  {
    if |ms| > 1 {
      ReplayWakes(ms[..|ms| - 1]);
    } else if |ms| == 1 {
      assert EnqueuedAll(FRESH, ms[..0]) == FRESH;
    }
  }

  /** Replaying a snapshot to a fresh client delivers all of it in order, or, past the
      backlog bound, disconnects. */
  lemma {:induction false} ReplayDelivers(ms: seq<Msg>)
    ensures Backlogged(EnqueuedAll(FRESH, ms), ms)
  {
    if ms != [] {
      hide Backlogged, Enqueued;
      var n := |ms| - 1;
      ReplayDelivers(ms[..n]);
      OneMoreBacklogged(EnqueuedAll(FRESH, ms[..n]), ms[..n], ms[n]);
      assert ms == ms[..n] + [ms[n]];
    }
  }
}
