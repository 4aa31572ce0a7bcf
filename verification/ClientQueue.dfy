/** The outbound queue of one WebSocket client (internal/proxy/api/server.go). */
module ClientQueue {
  // Broadcasters, the snapshot replay and the client's own read loop append to the
  // queue; one writer goroutine drains it. `enqueue` is two atomic steps, the append
  // under the client's mutex and the nudge of the 1-slot wake channel after it, so the
  // two may be separated by anything. `Client` is the state of one connection between
  // atomic steps; `sent` and `accepted` are history.

  /** A message published to clients; the session numbers them. */
  datatype Msg = Msg(id: nat, kind: string, body: string)

  const MAX_CLIENT_BACKLOG: nat := 5000

  /** Where the writer goroutine is. Unstarted: handleWS has not launched it yet.
      Parked: it took an empty queue and waits in select. */
  datatype Writer = Unstarted | Top | Writing | Parked | Stopped

  datatype Client = Client(
    queue: seq<Msg>,
    closed: bool,
    wake: bool,         // the wake channel holds its one token
    nudgers: nat,       // goroutines that have changed the queue and not yet nudged
    writer: Writer,
    hand: seq<Msg>,     // rest of the batch the writer took
    sent: seq<Msg>,     // written to the socket
    accepted: seq<Msg>) // ever appended to the queue

  const FRESH := Client([], false, false, 0, Unstarted, [], [], [])

  /** The locked half of enqueue: a closed client ignores the message; a client past the
      backlog bound is closed, and then nobody nudges. */
  function Append(c: Client, m: Msg): Client {
    if c.closed then c
    else if |c.queue| + 1 > MAX_CLIENT_BACKLOG then
      c.(closed := true, queue := [], accepted := c.accepted + [m])
    else
      c.(queue := c.queue + [m], accepted := c.accepted + [m], nudgers := c.nudgers + 1)
  }

  /** The locked half of shutdown. */
  function Close(c: Client): Client {
    c.(closed := true, queue := [], nudgers := c.nudgers + 1)
  }

  /** The non-blocking send on the wake channel. */
  function Nudge(c: Client): Client
    requires c.nudgers > 0
  {
    c.(wake := true, nudgers := c.nudgers - 1)
  }

  /** The writer's critical section, with the branch that follows an empty batch. */
  function Take(c: Client): Client
    requires c.writer == Top
  {
    var writer := if c.queue != [] then Writing else if c.closed then Stopped else Parked;
    c.(hand := c.queue, queue := [], writer := writer)
  }

  datatype Event =
    | Enqueue(msg: Msg)
    | NudgeEvent
    | Shutdown
    | Start        // go client.writeLoop()
    | TakeBatch
    | WriteOk      // one message reaches the socket
    | WriteFailed  // the writer returns with the rest of the batch in hand
    | WokenByToken
    | WokenByPing
    | Abandoned    // ping failure or context cancellation while parked

  predicate Enabled(c: Client, e: Event) {
    match e
    case Enqueue(_) => true
    case NudgeEvent => c.nudgers > 0
    case Shutdown => true
    case Start => c.writer == Unstarted
    case TakeBatch => c.writer == Top
    case WriteOk => c.writer == Writing && c.hand != []
    case WriteFailed => c.writer == Writing
    case WokenByToken => c.writer == Parked && c.wake
    case WokenByPing => c.writer == Parked
    case Abandoned => c.writer == Parked
  }

  function Step(c: Client, e: Event): Client
    requires Enabled(c, e)
  {
    match e
    case Enqueue(m) => Append(c, m)
    case NudgeEvent => Nudge(c)
    case Shutdown => Close(c)
    case Start => c.(writer := Top)
    case TakeBatch => Take(c)
    case WriteOk => c.(sent := c.sent + [c.hand[0]], hand := c.hand[1..],
                       writer := if |c.hand| == 1 then Top else Writing)
    case WriteFailed => c.(writer := Stopped)
    case WokenByToken => c.(wake := false, writer := Top)
    case WokenByPing => c.(writer := Top)
    case Abandoned => c.(writer := Stopped)
  }

  /** Nothing accepted is lost, duplicated or reordered: an open client's history is
      exactly what was sent, is in hand or is queued; closing drops a suffix at most. */
  ghost predicate Conserved(c: Client) {
    if c.closed then c.queue == [] && c.sent + c.hand <= c.accepted
    else c.sent + c.hand + c.queue == c.accepted && |c.queue| <= MAX_CLIENT_BACKLOG
  }

  /** A writer parked beside work -- queued messages, or a close it has to notice -- has a
      token waiting or somebody about to leave one. */
  ghost predicate NoLostWakeup(c: Client) {
    c.writer == Parked && (c.queue != [] || c.closed) ==> c.wake || c.nudgers > 0
  }

  ghost predicate Inv(c: Client) {
    && Conserved(c)
    && NoLostWakeup(c)
    && (c.writer == Writing ==> c.hand != [])
    && (c.writer in {Unstarted, Top, Parked} ==> c.hand == [])
    && (c.writer == Unstarted ==> c.sent == [])
  }

  lemma StepKeepsInv(c: Client, e: Event)
    requires Inv(c) && Enabled(c, e)
    ensures Inv(Step(c, e))
    ensures c.closed ==> Step(c, e).closed
    ensures c.accepted <= Step(c, e).accepted
    ensures c.sent <= Step(c, e).sent
  {
    var d := Step(c, e);
    match e {
      case Enqueue(m) =>
        assert c.sent + c.hand + (c.queue + [m]) == c.sent + c.hand + c.queue + [m];
      case TakeBatch =>
        assert c.hand == [];
        assert d.sent + d.hand + d.queue == c.sent + c.hand + c.queue;
      case WriteOk =>
        assert d.sent + d.hand == c.sent + c.hand;
      case _ =>
    }
  }

  ghost predicate Next(c: Client, d: Client) {
    exists e :: Enabled(c, e) && d == Step(c, e)
  }

  /** Any interleaving of enqueuers, shutdown and the writer, from a new connection. */
  ghost predicate Run(trace: seq<Client>) {
    && trace != []
    && trace[0] == FRESH
    && forall i :: 0 <= i < |trace| - 1 ==> Next(trace[i], trace[i + 1])
  }

  /** Conservation and no lost wakeup in every state of every interleaving. */
  lemma {:induction false} RunSafe(trace: seq<Client>)
    requires Run(trace)
    ensures forall i :: 0 <= i < |trace| ==> Inv(trace[i])
  {
    var n := |trace| - 1;
    if n > 0 {
      RunSafe(trace[..n]);
      assert Inv(trace[..n][n - 1]) && Next(trace[n - 1], trace[n - 1 + 1]);
      var e :| Enabled(trace[n - 1], e) && trace[n] == Step(trace[n - 1], e);
      StepKeepsInv(trace[n - 1], e);
      forall i | 0 <= i < |trace| ensures Inv(trace[i]) {
        if i < n { assert trace[i] == trace[..n][i]; }
      }
    }
  }

  /** Hence a quiet open client -- the writer parked, no token, no enqueuer under way -- has
      been sent exactly what it accepted. */
  lemma QuietMeansDelivered(trace: seq<Client>)
    requires Run(trace)
    requires var c := trace[|trace| - 1]; !c.closed && c.writer == Parked && !c.wake && c.nudgers == 0
    ensures trace[|trace| - 1].sent == trace[|trace| - 1].accepted
  {
    RunSafe(trace);
    var c := trace[|trace| - 1];
    assert c.sent + [] + [] == c.sent;
  }

  /** Only a failed write, a failed ping or the end of the connection stops the writer of an open
      client; that of a closed one also stops when it next takes the queue. */
  lemma WriterStopsIff(c: Client, e: Event)
    requires Inv(c) && Enabled(c, e) && c.writer != Stopped
    ensures Step(c, e).writer == Stopped <==> e.WriteFailed? || e.Abandoned? || (e.TakeBatch? && c.closed)
  {
  }

  /** And in every interleaving. */
  lemma OpenWriterStopsOnFailure(trace: seq<Client>, k: nat, e: Event)
    requires Run(trace) && k + 1 < |trace| && Enabled(trace[k], e) && trace[k + 1] == Step(trace[k], e)
    requires trace[k].writer != Stopped && trace[k + 1].writer == Stopped && !trace[k].closed
    ensures e.WriteFailed? || e.Abandoned?
  {
    RunSafe(trace);
    WriterStopsIff(trace[k], e);
  }

  /** The steps that bring an open client's messages to the socket. */
  predicate Delivers(e: Event) {
    e.Start? || e.TakeBatch? || e.WriteOk? || e.WokenByToken? || e.WokenByPing? || e.NudgeEvent?
  }

  /** How far an open client's messages are from the socket. */
  function Distance(c: Client): nat {
    4 * (|c.queue| + |c.hand|) + match c.writer
      case Parked => if c.wake then 2 else 3
      case Unstarted => 2
      case Top => 1
      case _ => 0
  }

  /** An open client whose writer has not failed never leaves a message lying: while one is unsent, a
      step of the writer or the nudge it waits for is enabled, and each step of the writer brings the
      messages closer to the socket. */
  lemma OpenWriterGoesOn(c: Client) returns (e: Event)
    requires Inv(c) && !c.closed && c.writer != Stopped && c.sent != c.accepted
    ensures Enabled(c, e) && Delivers(e)
    ensures Distance(Step(c, e)) < Distance(c) && Step(c, e).accepted == c.accepted
    ensures !Step(c, e).closed && Step(c, e).writer != Stopped
    ensures forall w :: Enabled(c, w) && IsWriterStep(w) && !w.WriteFailed? && !w.Abandoned? ==>
              Distance(Step(c, w)) < Distance(c)
  {
    assert c.queue == [] && c.hand == [] ==> c.sent + c.hand + c.queue == c.sent;
    e := match c.writer
      case Unstarted => Start
      case Top => TakeBatch
      case Writing => WriteOk
      case Parked => if c.wake then WokenByToken else NudgeEvent
      case Stopped => Start;
  }

  ghost predicate DeliveringNext(c: Client, d: Client) {
    exists e :: Delivers(e) && Enabled(c, e) && d == Step(c, e)
  }

  /** So all it has accepted can always still be sent, by such steps alone. */
  lemma {:induction false} AllIsSent(c: Client) returns (trace: seq<Client>)
    requires Inv(c) && !c.closed && c.writer != Stopped
    ensures trace != [] && trace[0] == c && trace[|trace| - 1].sent == c.accepted
    ensures forall i :: 0 <= i < |trace| - 1 ==> DeliveringNext(trace[i], trace[i + 1])
    decreases Distance(c)
  {
    if c.sent == c.accepted {
      return [c];
    }
    var e := OpenWriterGoesOn(c);
    var d := Step(c, e);
    StepKeepsInv(c, e);
    assert DeliveringNext(c, d);
    hide Step, Enabled, Inv, DeliveringNext;
    var rest := AllIsSent(d);
    trace := [c] + rest;
    forall i | 0 <= i < |trace| - 1 ensures DeliveringNext(trace[i], trace[i + 1]) {
      if i > 0 {
        assert trace[i] == rest[i - 1] && trace[i + 1] == rest[i - 1 + 1];
      }
    }
  }

  /** A client that was shut down is closed, holds nothing and never accepts anything again. */
  lemma ShutDownIsFinal(c: Client, e: Event)
    requires Inv(c) && Enabled(c, e)
    ensures e.Shutdown? ==> Step(c, e).closed
    ensures c.closed ==> Step(c, e).closed && Step(c, e).queue == [] && Step(c, e).accepted == c.accepted
  {
  }

  /** Steps the writer still has to take once the client is closed. */
  function WriterRank(c: Client): nat {
    match c.writer
    case Unstarted => 3
    case Parked => 2
    case Top => 1
    case Writing => 1 + |c.hand|
    case Stopped => 0
  }

  predicate IsWriterStep(e: Event) {
    e.Start? || e.TakeBatch? || e.WriteOk? || e.WriteFailed? || e.WokenByToken? || e.WokenByPing? || e.Abandoned?
  }

  /** A closed client never leaks its writer. It is never stuck -- some writer step or the
      nudge it waits for is enabled -- every writer step brings it closer to Stopped, and
      nobody else's step takes it further away. This holds although the overflow close
      leaves no nudge: the queue was not empty before, so one was already due. */
  lemma ClosedWriterStops(c: Client, e: Event)
    requires Inv(c) && c.closed
    ensures c.writer != Stopped && c.nudgers == 0 ==>
              exists w :: IsWriterStep(w) && !w.Abandoned? && !w.WriteFailed? && !w.WokenByPing? && Enabled(c, w)
    ensures Enabled(c, e) ==> Step(c, e).closed
    ensures Enabled(c, e) && IsWriterStep(e) ==> WriterRank(Step(c, e)) < WriterRank(c)
    ensures Enabled(c, e) && !IsWriterStep(e) ==> WriterRank(Step(c, e)) == WriterRank(c)
  {
    if c.writer != Stopped && c.nudgers == 0 {
      var w := match c.writer
        case Unstarted => Start
        case Top => TakeBatch
        case Writing => WriteOk
        case Parked => WokenByToken
        case Stopped => Start;
      assert IsWriterStep(w) && !w.Abandoned? && !w.WriteFailed? && !w.WokenByPing? && Enabled(c, w);
    }
  }

  /** Before its writer starts a client holds everything it accepted, so a replay that
      brings the total past the bound disconnects it: a full ring of 5000 messages plus one
      live message is already too many. */
  lemma UnstartedBacklog(c: Client, m: Msg)
    requires Inv(c) && c.writer == Unstarted && !c.closed
    ensures c.accepted == c.queue && |c.accepted| <= 5000
    ensures Append(c, m).closed <==> |c.accepted| == 5000
  {
    assert [] + [] + c.queue == c.queue;
  }
}
