/** Publishing and attaching on one proxy session (internal/proxy/api/server.go). */
module Delivery {
  // Any number of goroutines publish at once. publish is three atomic steps -- take an id,
  // append to the capped ring, broadcast -- and the broadcast itself holds subsMu while it
  // offers the message to one subscriber after another. A client attaches by subscribing,
  // reading the last-seen mark, and, when that is 0, replaying a snapshot of the ring one
  // message at a time. All of it interleaves freely; `State` is a session between steps.

  import ClientQueue

  type Msg = ClientQueue.Msg
  type Client = ClientQueue.Client

  const MAX_EVENT_BUF: nat := 5000

  predicate Bufferable(kind: string) {
    kind in {"event", "text", "input", "commandresult", "clientcommand", "prompt"}
  }

  /** The last MAX_EVENT_BUF elements. */
  function Capped(s: seq<Msg>): seq<Msg> {
    if |s| > MAX_EVENT_BUF then s[|s| - MAX_EVENT_BUF..] else s
  }

  /** Where a publishing goroutine is. Emitting is the read loop answering its own client
      only: the message gets an id but neither the ring nor the other clients see it. */
  datatype Pub =
    | Assigned(msg: Msg)
    | Ready(msg: Msg)
    | Casting(msg: Msg, rest: set<nat>)
    | Emitting(msg: Msg, to: nat)

  datatype Phase = Subscribed | Snapping | Replaying(rest: seq<Msg>) | Live | Leaving | Gone {
    /** Between subscribing and unsubscribing. */
    predicate Attached() { !Leaving? && !Gone? }
  }

  /** What the snapshot covered: appended[base..since]. */
  datatype Snap = NoSnap | Snap(base: int, since: nat)

  /** A client and the history of what it accepted, by origin. */
  datatype Attach = Attach(
    q: Client, phase: Phase, joined: nat, snap: Snap,
    live: seq<Msg>, replayed: seq<Msg>, direct: seq<Msg>)

  datatype Holder = Free | Held(p: nat)

  datatype State = State(
    issued: seq<Msg>,          // every message ever numbered; nextMsgID is its length
    ring: seq<Msg>,            // eventBuf
    appended: seq<Msg>,        // every message ever put in the ring
    lastSeen: nat,
    pubs: map<nat, Pub>,
    holder: Holder,            // subsMu
    subs: set<nat>,
    clients: map<nat, Attach>)

  const INITIAL := State([], [], [], 0, map[], Free, {}, map[])

  datatype Event =
    | Publish(p: nat, kind: string, body: string)
    | AppendRing(p: nat)
    | LockSubs(p: nat)
    | Offer(p: nat, c: nat)
    | Unlock(p: nat)
    | Emit(p: nat, c: nat, kind: string, body: string)
    | EmitOffer(p: nat)
    | Subscribe(c: nat)
    | CheckSeen(c: nat)
    | TakeSnapshot(c: nat)
    | ReplayOne(c: nat)
    | StartWriter(c: nat)
    | Queue(c: nat, e: ClientQueue.Event)   // nudges and writer steps
    | Unsubscribe(c: nat)
    | ShutDown(c: nat)
    | Seen(id: nat)

  predicate Enabled(s: State, e: Event) {
    match e
    case Publish(p, _, _) => p !in s.pubs
    case AppendRing(p) => p in s.pubs && s.pubs[p].Assigned?
    case LockSubs(p) => p in s.pubs && s.pubs[p].Ready? && s.holder == Free
    case Offer(p, c) => p in s.pubs && s.pubs[p].Casting? && c in s.pubs[p].rest && c in s.clients
    case Unlock(p) => p in s.pubs && s.pubs[p].Casting? && s.pubs[p].rest == {}
    case Emit(p, c, _, _) => p !in s.pubs && c in s.clients
    case EmitOffer(p) => p in s.pubs && s.pubs[p].Emitting? && s.pubs[p].to in s.clients
    case Subscribe(c) => c !in s.clients && s.holder == Free
    case CheckSeen(c) => c in s.clients && s.clients[c].phase == Subscribed
    case TakeSnapshot(c) => c in s.clients && s.clients[c].phase == Snapping
    case ReplayOne(c) => c in s.clients && s.clients[c].phase.Replaying? && s.clients[c].phase.rest != []
    case StartWriter(c) =>
      c in s.clients && s.clients[c].phase == Replaying([]) && s.clients[c].q.writer == ClientQueue.Unstarted
    case Queue(c, qe) =>
      c in s.clients && !qe.Enqueue? && !qe.Shutdown? && !qe.Start? && ClientQueue.Enabled(s.clients[c].q, qe)
    case Unsubscribe(c) => c in s.clients && s.clients[c].phase == Live && s.holder == Free
    case ShutDown(c) => c in s.clients && s.clients[c].phase == Leaving
    case Seen(_) => true
  }

  /** history after offering m to a client whose queue is q. */
  function Logged(log: seq<Msg>, q: Client, m: Msg): seq<Msg> {
    if q.closed then log else log + [m]
  }

  function NewMsg(s: State, kind: string, body: string): Msg {
    ClientQueue.Msg(|s.issued| + 1, kind, body)
  }

  function Step(s: State, e: Event): State
    requires Enabled(s, e)
  {
    match e
    case Publish(p, kind, body) =>
      var m := NewMsg(s, kind, body);
      s.(issued := s.issued + [m], pubs := s.pubs[p := Assigned(m)])
    case AppendRing(p) =>
      var m := s.pubs[p].msg;
      var t := s.(pubs := s.pubs[p := Ready(m)]);
      if Bufferable(m.kind) then t.(appended := s.appended + [m], ring := Capped(s.ring + [m])) else t
    case LockSubs(p) =>
      s.(holder := Held(p), pubs := s.pubs[p := Casting(s.pubs[p].msg, s.subs)])
    case Offer(p, c) =>
      var m, a := s.pubs[p].msg, s.clients[c];
      s.(pubs := s.pubs[p := Casting(m, s.pubs[p].rest - {c})],
         clients := s.clients[c := a.(q := ClientQueue.Append(a.q, m), live := Logged(a.live, a.q, m))])
    case Unlock(p) => s.(holder := Free, pubs := s.pubs - {p})
    case Emit(p, c, kind, body) =>
      var m := NewMsg(s, kind, body);
      s.(issued := s.issued + [m], pubs := s.pubs[p := Emitting(m, c)])
    case EmitOffer(p) =>
      var m, c := s.pubs[p].msg, s.pubs[p].to;
      var a := s.clients[c];
      s.(pubs := s.pubs - {p},
         clients := s.clients[c := a.(q := ClientQueue.Append(a.q, m), direct := Logged(a.direct, a.q, m))])
    case Subscribe(c) =>
      s.(subs := s.subs + {c},
         clients := s.clients[c := Attach(ClientQueue.FRESH, Subscribed, |s.appended|, NoSnap, [], [], [])])
    case CheckSeen(c) =>
      s.(clients := s.clients[c := s.clients[c].(phase := if s.lastSeen == 0 then Snapping else Replaying([]))])
    case TakeSnapshot(c) =>
      s.(clients := s.clients[c := s.clients[c].(
           phase := Replaying(s.ring),
           snap := Snap(|s.appended| - |s.ring|, |s.appended|))])
    case ReplayOne(c) =>
      var a := s.clients[c];
      var m := a.phase.rest[0];
      s.(clients := s.clients[c := a.(q := ClientQueue.Append(a.q, m), phase := Replaying(a.phase.rest[1..]),
                                      replayed := Logged(a.replayed, a.q, m))])
    case StartWriter(c) =>
      var a := s.clients[c];
      s.(clients := s.clients[c := a.(phase := Live, q := ClientQueue.Step(a.q, ClientQueue.Start))])
    case Queue(c, qe) =>
      s.(clients := s.clients[c := s.clients[c].(q := ClientQueue.Step(s.clients[c].q, qe))])
    case Unsubscribe(c) =>
      s.(subs := s.subs - {c}, clients := s.clients[c := s.clients[c].(phase := Leaving)])
    case ShutDown(c) =>
      s.(clients := s.clients[c := s.clients[c].(phase := Gone, q := ClientQueue.Close(s.clients[c].q))])
    case Seen(id) => s.(lastSeen := if id <= s.lastSeen then s.lastSeen else id)
  }

  // ------------------------------------------------------------- the shared state

  /** m was numbered by this session; ids identify messages. */
  ghost predicate Issued(s: State, m: Msg) {
    1 <= m.id <= |s.issued| && s.issued[m.id - 1] == m
  }

  /** Ids are 1, 2, 3, ...; the ring is the tail of what was ever appended, which never
      holds a message twice. */
  ghost predicate RingOk(s: State) {
    && (forall i :: 0 <= i < |s.issued| ==> s.issued[i].id == i + 1)
    && s.ring == Capped(s.appended)
    && (forall i :: 0 <= i < |s.appended| ==> Issued(s, s.appended[i]))
    && (forall i, j :: 0 <= i < j < |s.appended| ==> s.appended[i] != s.appended[j])
  }

  /** No two goroutines publish the same message, nor one that is in the ring already. */
  ghost predicate PubsOk(s: State) {
    && (forall p :: p in s.pubs ==> Issued(s, s.pubs[p].msg))
    && (forall p, r :: p in s.pubs && r in s.pubs && p != r ==> s.pubs[p].msg != s.pubs[r].msg)
    && (forall p :: p in s.pubs && (s.pubs[p].Assigned? || s.pubs[p].Emitting?) ==> s.pubs[p].msg !in s.appended)
  }

  /** Only the holder of subsMu broadcasts, and the subscribers stay put meanwhile. */
  ghost predicate LockOk(s: State) {
    && (forall p :: p in s.pubs && s.pubs[p].Casting? ==> s.holder == Held(p) && s.pubs[p].rest <= s.subs)
    && (forall c :: c in s.subs ==> c in s.clients && s.clients[c].phase.Attached())
  }

  ghost predicate Shared(s: State) {
    RingOk(s) && PubsOk(s) && LockOk(s)
  }

  lemma CappedAppend(s: seq<Msg>, m: Msg)
    ensures Capped(Capped(s) + [m]) == Capped(s + [m])
  {
    if |s| > MAX_EVENT_BUF {
      assert (s[|s| - MAX_EVENT_BUF..] + [m])[1..] == (s + [m])[|s| + 1 - MAX_EVENT_BUF..];
    }
  }

  /** The message a step numbers, if it numbers one. */
  function Numbered(s: State, e: Event): seq<Msg> {
    match e
    case Publish(_, kind, body) => [NewMsg(s, kind, body)]
    case Emit(_, _, kind, body) => [NewMsg(s, kind, body)]
    case _ => []
  }

  /** The message a step puts in the ring, if it does. */
  function Buffered(s: State, e: Event): seq<Msg>
    requires Enabled(s, e)
  {
    if e.AppendRing? && Bufferable(s.pubs[e.p].msg.kind) then [s.pubs[e.p].msg] else []
  }

  lemma RingFrame(s: State, e: Event)
    requires Enabled(s, e)
    ensures Step(s, e).issued == s.issued + Numbered(s, e)
    ensures Step(s, e).appended == s.appended + Buffered(s, e)
    ensures Step(s, e).ring == if Buffered(s, e) == [] then s.ring else Capped(s.ring + Buffered(s, e))
  {
  }

  lemma IssuedKept(s: State, e: Event, m: Msg)
    requires Enabled(s, e) && Issued(s, m)
    ensures Issued(Step(s, e), m)
  {
    RingFrame(s, e);
  }

  lemma StepKeepsRing(s: State, e: Event)
    requires Shared(s) && Enabled(s, e)
    ensures RingOk(Step(s, e))
    ensures s.appended <= Step(s, e).appended
  {
    var t := Step(s, e);
    RingFrame(s, e);
    var news := Buffered(s, e);
    if news != [] {
      CappedAppend(s.appended, news[0]);
    }
    forall i | 0 <= i < |t.appended| ensures Issued(t, t.appended[i]) {
      if i < |s.appended| { IssuedKept(s, e, s.appended[i]); } else { IssuedKept(s, e, news[0]); }
    }
  }

  /** A step leaves every publisher but its own alone, and its own keeps its message. */
  lemma PubsFrame(s: State, e: Event, p: nat)
    requires Enabled(s, e)
    ensures p in Step(s, e).pubs && p !in s.pubs ==>
              Numbered(s, e) == [Step(s, e).pubs[p].msg] && (e.Publish? || e.Emit?) && e.p == p
    ensures p in Step(s, e).pubs && p in s.pubs ==> Step(s, e).pubs[p].msg == s.pubs[p].msg
    ensures p in Step(s, e).pubs && p in s.pubs && (Step(s, e).pubs[p].Assigned? || Step(s, e).pubs[p].Emitting?) ==>
              Step(s, e).pubs[p] == s.pubs[p] && !(e.AppendRing? && e.p == p)
  {
  }

  lemma StepKeepsPubs(s: State, e: Event)
    requires Shared(s) && Enabled(s, e)
    ensures PubsOk(Step(s, e))
  {
    var t := Step(s, e);
    RingFrame(s, e);
    forall p | p in t.pubs
      ensures Issued(t, t.pubs[p].msg)
      ensures t.pubs[p].Assigned? || t.pubs[p].Emitting? ==> t.pubs[p].msg !in t.appended
    {
      PubsFrame(s, e, p);
      if p in s.pubs { IssuedKept(s, e, s.pubs[p].msg); }
    }
    forall p, r | p in t.pubs && r in t.pubs && p != r ensures t.pubs[p].msg != t.pubs[r].msg {
      PubsFrame(s, e, p);
      PubsFrame(s, e, r);
    }
  }

  lemma StepKeepsLock(s: State, e: Event)
    requires Shared(s) && Enabled(s, e)
    ensures LockOk(Step(s, e))
  {
    hide RingOk, PubsOk, Capped;
  }

  lemma StepKeepsShared(s: State, e: Event)
    requires Shared(s) && Enabled(s, e)
    ensures Shared(Step(s, e))
  {
    StepKeepsRing(s, e);
    StepKeepsPubs(s, e);
    StepKeepsLock(s, e);
  }

  // ------------------------------------------------------------- one client

  /** The broadcast of m has yet to reach client c. */
  ghost predicate Pending(s: State, c: nat, m: Msg) {
    exists p :: p in s.pubs && s.pubs[p].msg == m
                && (s.pubs[p].Ready? || (s.pubs[p].Casting? && c in s.pubs[p].rest))
  }

  /** Every acceptance has one origin. */
  ghost predicate Origins(a: Attach) {
    multiset(a.q.accepted) == multiset(a.live) + multiset(a.replayed) + multiset(a.direct)
  }

  /** A broadcast reaches a client once, and only while it is under way. */
  ghost predicate LiveOnce(s: State, c: nat, a: Attach) {
    && (forall i :: 0 <= i < |a.live| ==> Issued(s, a.live[i]))
    && (forall i, j :: 0 <= i < j < |a.live| ==> a.live[i] != a.live[j])
    && (forall p, i :: p in s.pubs && 0 <= i < |a.live| && s.pubs[p].msg == a.live[i]
          ==> s.pubs[p].Casting? && c !in s.pubs[p].rest)
  }

  /** Messages emitted to one client are never in the ring. */
  ghost predicate DirectApart(s: State, a: Attach) {
    && (forall i :: 0 <= i < |a.direct| ==> Issued(s, a.direct[i]) && a.direct[i] !in s.appended)
    && (forall p, i :: p in s.pubs && 0 <= i < |a.direct| ==> s.pubs[p].msg != a.direct[i])
  }

  /** The replay walks the snapshot in order, and an open client has accepted all of it
      that has been walked. */
  ghost predicate ReplayOn(appended: seq<Msg>, a: Attach) {
    match a.snap
    case NoSnap => a.replayed == [] && (a.phase.Replaying? ==> a.phase.rest == [])
    case Snap(base, since) =>
      && 0 <= base <= since <= |appended|
      && a.phase !in {Subscribed, Snapping}
      && a.replayed <= appended[base..since]
      && a.joined <= since
      && (!a.q.closed ==>
            a.replayed + (if a.phase.Replaying? then a.phase.rest else []) == appended[base..since])
  }

  /** No message appended since the client subscribed has passed it by. */
  ghost predicate LiveComplete(s: State, c: nat, a: Attach) {
    && a.joined <= |s.appended|
    && (!a.q.closed && c in s.subs ==>
          forall j :: a.joined <= j < |s.appended| ==> s.appended[j] in a.live || Pending(s, c, s.appended[j]))
  }

  ghost predicate ClientOk(s: State, c: nat)
    requires c in s.clients
  {
    var a := s.clients[c];
    && ClientQueue.Inv(a.q) && Origins(a) && LiveOnce(s, c, a) && DirectApart(s, a)
    && ReplayOn(s.appended, a) && LiveComplete(s, c, a)
    && (a.phase.Attached() ==> c in s.subs)
  }

  lemma OfferKeepsQueue(q: Client, m: Msg)
    requires ClientQueue.Inv(q)
    ensures ClientQueue.Inv(ClientQueue.Append(q, m))
    ensures ClientQueue.Append(q, m).accepted == Logged(q.accepted, q, m)
    ensures q.closed ==> ClientQueue.Append(q, m).closed
  {
    ClientQueue.StepKeepsInv(q, ClientQueue.Enqueue(m));
  }

  lemma AcceptedKept(q: Client, e: ClientQueue.Event)
    requires ClientQueue.Inv(q) && ClientQueue.Enabled(q, e) && !e.Enqueue?
    ensures ClientQueue.Inv(ClientQueue.Step(q, e))
    ensures ClientQueue.Step(q, e).accepted == q.accepted
    ensures !ClientQueue.Step(q, e).closed ==> !q.closed
  {
    ClientQueue.StepKeepsInv(q, e);
  }

  /** The client a step acts on. */
  predicate Touches(s: State, e: Event, c: nat)
    requires Enabled(s, e)
  {
    match e
    case Offer(_, d) => d == c
    case EmitOffer(p) => s.pubs[p].to == c
    case Subscribe(d) => d == c
    case CheckSeen(d) => d == c
    case TakeSnapshot(d) => d == c
    case ReplayOne(d) => d == c
    case StartWriter(d) => d == c
    case Queue(d, _) => d == c
    case Unsubscribe(d) => d == c
    case ShutDown(d) => d == c
    case _ => false
  }

  lemma ClientFrame(s: State, e: Event, c: nat)
    requires Enabled(s, e)
    ensures c in Step(s, e).clients <==> c in s.clients || e == Subscribe(c)
    ensures c in s.clients && !Touches(s, e, c) ==> Step(s, e).clients[c] == s.clients[c]
    ensures e.Subscribe? && Touches(s, e, c) ==> c !in s.clients
    ensures c in s.subs && e != Unsubscribe(c) ==> c in Step(s, e).subs
    ensures c in Step(s, e).subs ==> c in s.subs || e == Subscribe(c)
  {
  }

  lemma StepKeepsOrigins(s: State, e: Event, c: nat)
    requires Enabled(s, e) && c in s.clients && ClientQueue.Inv(s.clients[c].q) && Origins(s.clients[c])
    ensures c in Step(s, e).clients
    ensures ClientQueue.Inv(Step(s, e).clients[c].q) && Origins(Step(s, e).clients[c])
  {
    ClientFrame(s, e, c);
    if Touches(s, e, c) {
      var a := s.clients[c];
      match e {
        case Offer(p, _) => OriginsGrow(a, s.pubs[p].msg);
        case EmitOffer(p) => OriginsGrow(a, s.pubs[p].msg);
        case ReplayOne(_) => OriginsGrow(a, a.phase.rest[0]);
        case StartWriter(_) => AcceptedKept(a.q, ClientQueue.Start);
        case Queue(_, qe) => AcceptedKept(a.q, qe);
        case ShutDown(_) => AcceptedKept(a.q, ClientQueue.Shutdown);
        case _ =>
      }
      hide ClientQueue.Append, Logged, ClientQueue.Inv, Origins;
    }
  }

  lemma SnocCount(log: seq<Msg>, m: Msg)
    ensures multiset(log + [m]) == multiset(log) + multiset{m}
  {
  }

  /** One more message, by any of the three ways. */
  lemma OriginsGrow(a: Attach, m: Msg)
    requires ClientQueue.Inv(a.q) && Origins(a)
    ensures var q := ClientQueue.Append(a.q, m);
      && ClientQueue.Inv(q)
      && Origins(a.(q := q, live := Logged(a.live, a.q, m)))
      && Origins(a.(q := q, replayed := Logged(a.replayed, a.q, m)))
      && Origins(a.(q := q, direct := Logged(a.direct, a.q, m)))
  {
    OfferKeepsQueue(a.q, m);
    hide ClientQueue.Append, ClientQueue.Inv;
    SnocCount(a.q.accepted, m);
    SnocCount(a.live, m);
    SnocCount(a.replayed, m);
    SnocCount(a.direct, m);
    SumGrows(multiset(a.live), multiset(a.replayed), multiset(a.direct), multiset{m});
  }

  lemma SumGrows(a: multiset<Msg>, b: multiset<Msg>, c: multiset<Msg>, m: multiset<Msg>)
    ensures (a + m) + b + c == (a + b + c) + m
    ensures a + (b + m) + c == (a + b + c) + m && a + b + (c + m) == (a + b + c) + m
  {
  }

  /** Only a broadcast adds to the live history, and then the message it is offering. */
  lemma LiveFrame(s: State, e: Event, c: nat)
    requires Enabled(s, e) && c in s.clients && c in Step(s, e).clients
    ensures var a, b := s.clients[c], Step(s, e).clients[c];
            b.live == a.live || (e.Offer? && e.c == c && !a.q.closed && b.live == a.live + [s.pubs[e.p].msg])
    ensures var a, b := s.clients[c], Step(s, e).clients[c];
            b.direct == a.direct || (e.EmitOffer? && !a.q.closed && b.direct == a.direct + [s.pubs[e.p].msg])
  {
  }

  lemma StepKeepsLiveOnce(s: State, e: Event, c: nat)
    requires Shared(s) && Enabled(s, e) && c in s.clients && c in Step(s, e).clients
    requires LiveOnce(s, c, s.clients[c])
    ensures LiveOnce(Step(s, e), c, Step(s, e).clients[c])
  {
    var t := Step(s, e);
    var a, b := s.clients[c], t.clients[c];
    LiveFrame(s, e, c);
    forall i | 0 <= i < |b.live| ensures Issued(t, b.live[i]) {
      IssuedKept(s, e, if i < |a.live| then a.live[i] else s.pubs[e.p].msg);
    }
    forall p, i | p in t.pubs && 0 <= i < |b.live| && t.pubs[p].msg == b.live[i]
      ensures t.pubs[p].Casting? && c !in t.pubs[p].rest
    {
      PubsFrame(s, e, p);
      if i < |a.live| {
        assert Issued(s, a.live[i]);
      }
    }
  }

  lemma StepKeepsDirect(s: State, e: Event, c: nat)
    requires Shared(s) && Enabled(s, e) && c in s.clients && c in Step(s, e).clients
    requires DirectApart(s, s.clients[c])
    ensures DirectApart(Step(s, e), Step(s, e).clients[c])
  {
    var t := Step(s, e);
    var a, b := s.clients[c], t.clients[c];
    LiveFrame(s, e, c);
    RingFrame(s, e);
    forall i | 0 <= i < |b.direct| ensures Issued(t, b.direct[i]) && b.direct[i] !in t.appended {
      IssuedKept(s, e, if i < |a.direct| then a.direct[i] else s.pubs[e.p].msg);
    }
    forall p, i | p in t.pubs && 0 <= i < |b.direct| ensures t.pubs[p].msg != b.direct[i] {
      PubsFrame(s, e, p);
      if i < |a.direct| {
        assert Issued(s, a.direct[i]);
      }
    }
  }

  /** What the attaching goroutine does to its client's replay state. */
  lemma ReplayFrame(s: State, e: Event, c: nat)
    requires Enabled(s, e) && c in s.clients && c in Step(s, e).clients
    ensures Step(s, e).clients[c].joined == s.clients[c].joined
    ensures ReplayMoves(s, e, c, s.clients[c], Step(s, e).clients[c])
  {
  }

  ghost predicate ReplayMoves(s: State, e: Event, c: nat, a: Attach, b: Attach) {
    if e == TakeSnapshot(c) then SnapshotMove(s, a, b)
    else if e == ReplayOne(c) then ReplayMove(a, b)
    else IdleMove(a, b)
  }

  ghost predicate SnapshotMove(s: State, a: Attach, b: Attach) {
    && a.phase == Snapping && b.phase == Replaying(s.ring) && b.replayed == a.replayed
    && b.snap == Snap(|s.appended| - |s.ring|, |s.appended|)
  }

  ghost predicate ReplayMove(a: Attach, b: Attach) {
    && a.phase.Replaying? && a.phase.rest != [] && b.phase == Replaying(a.phase.rest[1..])
    && b.q == ClientQueue.Append(a.q, a.phase.rest[0]) && b.replayed == Logged(a.replayed, a.q, a.phase.rest[0])
    && b.snap == a.snap
  }

  ghost predicate IdleMove(a: Attach, b: Attach) {
    && b.replayed == a.replayed && b.snap == a.snap
    && (b.phase != a.phase ==>
          && a.phase != Snapping && (a.phase.Replaying? ==> a.phase.rest == [])
          && (b.phase in {Live, Leaving, Gone}
              || (a.phase == Subscribed && b.phase in {Snapping, Replaying([])})))
  }

  /** The history only grows, which leaves what a snapshot covers as it is. */
  lemma ReplayStays(was: seq<Msg>, now: seq<Msg>, a: Attach, b: Attach)
    requires was <= now && ReplayOn(was, a) && b.joined == a.joined && IdleMove(a, b)
    requires !b.q.closed ==> !a.q.closed
    ensures ReplayOn(now, b)
  {
    if a.snap.Snap? {
      assert now[a.snap.base..a.snap.since] == was[a.snap.base..a.snap.since];
    }
  }

  lemma ReplayAdvances(was: seq<Msg>, now: seq<Msg>, a: Attach, b: Attach)
    requires was <= now && ReplayOn(was, a) && b.joined == a.joined && ReplayMove(a, b)
    requires !b.q.closed ==> !a.q.closed
    ensures ReplayOn(now, b)
  {
    if a.snap.Snap? {
      assert now[a.snap.base..a.snap.since] == was[a.snap.base..a.snap.since];
      assert a.replayed + a.phase.rest == (a.replayed + [a.phase.rest[0]]) + a.phase.rest[1..];
    }
  }

  lemma ReplayStarts(s: State, now: seq<Msg>, a: Attach, b: Attach)
    requires Shared(s) && s.appended <= now && ReplayOn(s.appended, a) && b.joined == a.joined <= |s.appended|
    requires SnapshotMove(s, a, b)
    ensures ReplayOn(now, b)
  {
    assert [] + s.ring == s.ring;
    assert now[|s.appended| - |s.ring|..|s.appended|] == s.appended[|s.appended| - |s.ring|..];
  }

  lemma StepKeepsReplay(s: State, e: Event, c: nat)
    requires Shared(s) && Enabled(s, e) && c in s.clients && c in Step(s, e).clients
    requires ReplayOn(s.appended, s.clients[c]) && s.clients[c].joined <= |s.appended|
    requires ClientQueue.Inv(s.clients[c].q)
    ensures ReplayOn(Step(s, e).appended, Step(s, e).clients[c])
  {
    RingFrame(s, e);
    ReplayFrame(s, e, c);
    OpenBefore(s, e, c);
    hide ReplayOn, SnapshotMove, ReplayMove, IdleMove, Shared, Step, Enabled;
    var t := Step(s, e);
    if e == TakeSnapshot(c) {
      ReplayStarts(s, t.appended, s.clients[c], t.clients[c]);
    } else if e == ReplayOne(c) {
      ReplayAdvances(s.appended, t.appended, s.clients[c], t.clients[c]);
    } else {
      ReplayStays(s.appended, t.appended, s.clients[c], t.clients[c]);
    }
  }

  /** A pending broadcast stays pending until it is offered. */
  lemma PendingKept(s: State, e: Event, c: nat, m: Msg)
    requires Shared(s) && Enabled(s, e) && Pending(s, c, m) && c in s.subs
    requires !(e.Offer? && e.c == c && s.pubs[e.p].msg == m)
    ensures Pending(Step(s, e), c, m)
  {
    var p :| p in s.pubs && s.pubs[p].msg == m && (s.pubs[p].Ready? || (s.pubs[p].Casting? && c in s.pubs[p].rest));
    var t := Step(s, e);
    assert p in t.pubs && t.pubs[p].msg == m && (t.pubs[p].Ready? || (t.pubs[p].Casting? && c in t.pubs[p].rest));
  }

  lemma StepKeepsComplete(s: State, e: Event, c: nat)
    requires Shared(s) && Enabled(s, e) && c in s.clients && c in Step(s, e).clients
    requires LiveComplete(s, c, s.clients[c]) && ClientQueue.Inv(s.clients[c].q)
    ensures LiveComplete(Step(s, e), c, Step(s, e).clients[c])
  {
    var t := Step(s, e);
    var a, b := s.clients[c], t.clients[c];
    RingFrame(s, e);
    ClientFrame(s, e, c);
    LiveFrame(s, e, c);
    OpenBefore(s, e, c);
    if !b.q.closed && c in t.subs {
      forall j | b.joined <= j < |t.appended| ensures t.appended[j] in b.live || Pending(t, c, t.appended[j]) {
        if j == |s.appended| {
          assert t.pubs[e.p].Ready?;
        } else if t.appended[j] !in b.live {
          PendingKept(s, e, c, s.appended[j]);
        }
      }
    }
  }

  lemma OpenBefore(s: State, e: Event, c: nat)
    requires Enabled(s, e) && c in s.clients && c in Step(s, e).clients && ClientQueue.Inv(s.clients[c].q)
    ensures !Step(s, e).clients[c].q.closed ==> !s.clients[c].q.closed
    ensures Step(s, e).clients[c].joined == s.clients[c].joined
  {
    var q := s.clients[c].q;
    if e.Queue? && e.c == c {
      AcceptedKept(q, e.e);
    }
  }

  lemma StepKeepsMembership(s: State, e: Event, c: nat)
    requires Enabled(s, e) && c in Step(s, e).clients
    requires c in s.clients && s.clients[c].phase.Attached() ==> c in s.subs
    ensures Step(s, e).clients[c].phase.Attached() ==> c in Step(s, e).subs
  {
  }

  lemma NewClientOk(s: State, c: nat)
    requires Enabled(s, Subscribe(c))
    ensures ClientOk(Step(s, Subscribe(c)), c)
  {
  }

  lemma StepKeepsClient(s: State, e: Event, c: nat)
    requires Shared(s) && Enabled(s, e) && c in s.clients && ClientOk(s, c)
    ensures c in Step(s, e).clients && ClientOk(Step(s, e), c)
  {
    ClientFrame(s, e, c);
    StepKeepsOrigins(s, e, c);
    StepKeepsLiveOnce(s, e, c);
    StepKeepsDirect(s, e, c);
    StepKeepsReplay(s, e, c);
    StepKeepsComplete(s, e, c);
    StepKeepsMembership(s, e, c);
  }

  ghost predicate Inv(s: State) {
    Shared(s) && forall c :: c in s.clients ==> ClientOk(s, c)
  }

  lemma StepKeepsInv(s: State, e: Event)
    requires Inv(s) && Enabled(s, e)
    ensures Inv(Step(s, e))
  {
    StepKeepsShared(s, e);
    forall c | c in Step(s, e).clients ensures ClientOk(Step(s, e), c) {
      ClientFrame(s, e, c);
      if c in s.clients {
        StepKeepsClient(s, e, c);
      } else {
        NewClientOk(s, c);
      }
    }
  }

  // ------------------------------------------------------------- whole runs

  ghost predicate Next(s: State, t: State) {
    exists e :: Enabled(s, e) && t == Step(s, e)
  }

  /** Every interleaving of publishers, attaching clients, writers and detaches. */
  ghost predicate Run(trace: seq<State>) {
    && trace != []
    && trace[0] == INITIAL
    && forall i :: 0 <= i < |trace| - 1 ==> Next(trace[i], trace[i + 1])
  }

  function Last(trace: seq<State>): State
    requires trace != []
  {
    trace[|trace| - 1]
  }

  lemma StepAt(trace: seq<State>, k: nat) returns (e: Event)
    requires Run(trace) && k + 1 < |trace|
    ensures Enabled(trace[k], e) && trace[k + 1] == Step(trace[k], e)
  {
    assert Next(trace[k], trace[k + 1]);
    e :| Enabled(trace[k], e) && trace[k + 1] == Step(trace[k], e);
  }

  lemma {:induction false} RunKeepsInv(trace: seq<State>, k: nat)
    requires Run(trace) && k < |trace|
    ensures Inv(trace[k])
  {
    if k > 0 {
      hide *;
      var e := StepAt(trace, k - 1);
      RunKeepsInv(trace, k - 1);
      StepKeepsInv(trace[k - 1], e);
    }
  }

  /** Whatever the publishers do, message ids are distinct and the ring is exactly the last 5000
      messages in append order. */
  lemma RingIsTailOfHistory(trace: seq<State>)
    requires Run(trace)
    ensures var s := Last(trace);
            && s.ring == (if |s.appended| > 5000 then s.appended[|s.appended| - 5000..] else s.appended)
            && (forall i, j :: 0 <= i < j < |s.issued| ==> s.issued[i].id != s.issued[j].id)
            && (forall i, j :: 0 <= i < j < |s.appended| ==> s.appended[i].id != s.appended[j].id)
            && (forall m :: m in s.appended ==> m in s.issued)
  {
    RunKeepsInv(trace, |trace| - 1);
    var s := Last(trace);
    forall i, j | 0 <= i < j < |s.appended| ensures s.appended[i].id != s.appended[j].id {
      assert Issued(s, s.appended[i]) && Issued(s, s.appended[j]);
    }
    forall m | m in s.appended ensures m in s.issued {
      var i :| 0 <= i < |s.appended| && s.appended[i] == m;
      assert Issued(s, s.appended[i]);
    }
  }

  lemma {:induction false} DistinctCount(s: seq<Msg>, m: Msg)
    requires forall i, j :: 0 <= i < j < |s| ==> s[i] != s[j]
    ensures multiset(s)[m] == if m in s then 1 else 0
  {
    if s != [] {
      var n := |s| - 1;
      DistinctCount(s[..n], m);
      assert s == s[..n] + [s[n]];
    }
  }

  lemma SnapshotStep(s: State, e: Event, c: nat)
    requires Inv(s) && Enabled(s, e) && c in s.clients && s.clients[c].snap.Snap?
    ensures c in Step(s, e).clients && Step(s, e).clients[c].snap == s.clients[c].snap
    ensures s.appended <= Step(s, e).appended
  {
    assert ClientOk(s, c);
    ClientFrame(s, e, c);
    ReplayFrame(s, e, c);
    RingFrame(s, e);
  }

  ghost predicate SnapshotAt(trace: seq<State>, i: nat, c: nat) {
    && i + 1 < |trace|
    && Enabled(trace[i], TakeSnapshot(c)) && trace[i + 1] == Step(trace[i], TakeSnapshot(c))
  }

  lemma SnapshotTaken(s: State, c: nat)
    requires Enabled(s, TakeSnapshot(c))
    ensures var t := Step(s, TakeSnapshot(c));
            t.appended == s.appended && c in t.clients
            && t.clients[c].snap == Snap(|s.appended| - |s.ring|, |s.appended|)
  {
  }

  /** From the snapshot on, a client remembers what it covered and the history only grows. */
  lemma {:induction false} SnapshotKept(trace: seq<State>, i: nat, c: nat, k: nat)
    requires Run(trace) && SnapshotAt(trace, i, c) && i < k < |trace|
    ensures trace[i].appended <= trace[k].appended
    ensures c in trace[k].clients
    ensures trace[k].clients[c].snap == Snap(|trace[i].appended| - |trace[i].ring|, |trace[i].appended|)
  {
    hide Step, Inv, Enabled;
    if i + 1 == k {
      SnapshotTaken(trace[i], c);
    } else {
      var e := StepAt(trace, k - 1);
      SnapshotKept(trace, i, c, k - 1);
      RunKeepsInv(trace, k - 1);
      SnapshotStep(trace[k - 1], e, c);
    }
  }

  // ------------------------------------------------------------- attaching to a full ring

  /** Until the writer starts a client holds all it accepted, and only the message that goes past the
      backlog bound closes it. A client that has left is closed. */
  ghost predicate QueueOk(a: Attach) {
    && (Attaching(a.phase) ==>
          a.q.writer == ClientQueue.Unstarted && (a.q.closed ==> |a.q.accepted| == ClientQueue.MAX_CLIENT_BACKLOG + 1))
    && (a.live == [] && a.direct == [] ==> a.q.accepted == a.replayed)
    && (a.phase == Gone ==> a.q.closed)
  }

  predicate Attaching(p: Phase) {
    p == Subscribed || p == Snapping || p.Replaying?
  }

  /** One more message, by any of the three ways. */
  lemma QueueOkGrows(a: Attach, m: Msg, rest: seq<Msg>)
    requires ClientQueue.Inv(a.q) && QueueOk(a)
    ensures var q := ClientQueue.Append(a.q, m);
      && QueueOk(a.(q := q, live := Logged(a.live, a.q, m)))
      && QueueOk(a.(q := q, direct := Logged(a.direct, a.q, m)))
      && (a.phase.Replaying? ==> QueueOk(a.(q := q, phase := Replaying(rest), replayed := Logged(a.replayed, a.q, m))))
  {
    OfferKeepsQueue(a.q, m);
    ClientQueue.ShutDownIsFinal(a.q, ClientQueue.Enqueue(m));
    if Attaching(a.phase) && !a.q.closed { ClientQueue.UnstartedBacklog(a.q, m); }
  }

  lemma QueueStays(q: Client, e: ClientQueue.Event)
    requires ClientQueue.Inv(q) && ClientQueue.Enabled(q, e) && !e.Enqueue? && !e.Shutdown? && !e.Start?
    ensures var r := ClientQueue.Step(q, e);
      r.accepted == q.accepted && r.closed == q.closed && (q.writer == ClientQueue.Unstarted ==> r.writer == q.writer)
  {
  }

  lemma StepKeepsQueueOk(s: State, e: Event, c: nat)
    requires Enabled(s, e) && c in s.clients && ClientQueue.Inv(s.clients[c].q) && QueueOk(s.clients[c])
    ensures c in Step(s, e).clients && QueueOk(Step(s, e).clients[c])
  {
    ClientFrame(s, e, c);
    if Touches(s, e, c) {
      var a := s.clients[c];
      match e {
        case Offer(p, _) => QueueOkGrows(a, s.pubs[p].msg, []);
        case EmitOffer(p) => QueueOkGrows(a, s.pubs[p].msg, []);
        case ReplayOne(_) => QueueOkGrows(a, a.phase.rest[0], a.phase.rest[1..]);
        case Queue(_, qe) => QueueStays(a.q, qe);
        case _ =>
      }
    }
  }

  lemma {:induction false} RunKeepsQueueOk(trace: seq<State>, k: nat, c: nat)
    requires Run(trace) && k < |trace| && c in trace[k].clients
    ensures QueueOk(trace[k].clients[c])
  {
    if k > 0 {
      var e := StepAt(trace, k - 1);
      RunKeepsInv(trace, k - 1);
      ClientFrame(trace[k - 1], e, c);
      if c in trace[k - 1].clients {
        assert ClientOk(trace[k - 1], c);
        RunKeepsQueueOk(trace, k - 1, c);
        hide *;
        StepKeepsQueueOk(trace[k - 1], e, c);
      }
    }
  }

  /** When the whole ring has been replayed to a client, it is disconnected exactly if the ring and what
      came meanwhile are more than 5000 messages; otherwise it has them all queued. So a client to
      which nothing came meanwhile is connected, with just the ring, in order. */
  lemma AttachOverflowsIff(trace: seq<State>, i: nat, c: nat)
    requires Run(trace) && SnapshotAt(trace, i, c)
    requires c in Last(trace).clients && Last(trace).clients[c].phase == Replaying([])
    ensures var a := Last(trace).clients[c];
      && (a.q.closed <==> |trace[i].ring| + |a.live| + |a.direct| > 5000)
      && (!a.q.closed ==> a.q.queue == a.q.accepted)
      && (a.live == [] && a.direct == [] ==> !a.q.closed && a.q.queue == trace[i].ring)
  {
    var k := |trace| - 1;
    var a := Last(trace).clients[c];
    RunKeepsInv(trace, k);
    assert ClientOk(Last(trace), c);
    RunKeepsQueueOk(trace, k, c);
    RunKeepsInv(trace, i);
    SnapshotKept(trace, i, c, k);
    RingIsSlice(trace[i], Last(trace).appended);
    assert a.replayed + [] == a.replayed;
    OriginsSize(a);
    hide Run, Step, Enabled, LiveOnce, LiveComplete, DirectApart, Shared, Inv;
    if !a.q.closed { assert [] + [] + a.q.queue == a.q.queue; }
  }

  lemma OriginsSize(a: Attach)
    requires Origins(a)
    ensures |a.q.accepted| == |a.live| + |a.replayed| + |a.direct|
  {
    assert |multiset(a.q.accepted)| == |multiset(a.live) + multiset(a.replayed) + multiset(a.direct)|;
  }

  /** The ring is the stretch of the history that a snapshot of it is said to cover. */
  lemma RingIsSlice(s: State, now: seq<Msg>)
    requires Inv(s) && s.appended <= now
    ensures |s.ring| <= |s.appended| && |s.ring| <= 5000
    ensures now[|s.appended| - |s.ring|..|s.appended|] == s.ring
  {
    assert now[|s.appended| - |s.ring|..|s.appended|] == s.appended[|s.appended| - |s.ring|..];
  }

  lemma GoneIsClosed(trace: seq<State>, k: nat, c: nat)
    requires Run(trace) && k < |trace| && c in trace[k].clients && trace[k].clients[c].phase == Gone
    ensures trace[k].clients[c].q.closed
  {
    RunKeepsQueueOk(trace, k, c);
  }

  /** A client that has left accepts nothing more. */
  lemma {:induction false} GoneAcceptsNothing(trace: seq<State>, i: nat, k: nat, c: nat)
    requires Run(trace) && i <= k < |trace| && c in trace[i].clients && trace[i].clients[c].phase == Gone
    ensures c in trace[k].clients && trace[k].clients[c].phase == Gone && trace[k].clients[c].q.closed
    ensures trace[k].clients[c].q.accepted == trace[i].clients[c].q.accepted
  {
    hide *;
    GoneIsClosed(trace, i, c);
    if i < k {
      GoneAcceptsNothing(trace, i, k - 1, c);
      RunKeepsInv(trace, k - 1);
      InvQueue(trace[k - 1], c);
      var e := StepAt(trace, k - 1);
      GoneStays(trace[k - 1], e, c);
    }
  }

  lemma GoneStays(s: State, e: Event, c: nat)
    requires Enabled(s, e) && c in s.clients && s.clients[c].phase == Gone && s.clients[c].q.closed
    requires ClientQueue.Inv(s.clients[c].q)
    ensures c in Step(s, e).clients && Step(s, e).clients[c].phase == Gone && Step(s, e).clients[c].q.closed
    ensures Step(s, e).clients[c].q.accepted == s.clients[c].q.accepted
  {
    ClientFrame(s, e, c);
    if e.Queue? && e.c == c { ClientQueue.ShutDownIsFinal(s.clients[c].q, e.e); }
  }

  // ------------------------------------------------------------- who is replayed what

  ghost predicate ChecksAt(trace: seq<State>, i: nat, c: nat) {
    i + 1 < |trace| && Enabled(trace[i], CheckSeen(c)) && trace[i + 1] == Step(trace[i], CheckSeen(c))
  }

  /** Decided, or on the way to a snapshot. */
  predicate Decided(a: Attach, replay: bool) {
    if a.phase == Snapping then replay && a.snap == NoSnap
    else a.phase != Subscribed && (a.snap.Snap? <==> replay)
  }

  lemma DecidedStep(s: State, e: Event, c: nat, replay: bool)
    requires Enabled(s, e) && c in s.clients && Decided(s.clients[c], replay)
    ensures c in Step(s, e).clients && Decided(Step(s, e).clients[c], replay)
  {
    ClientFrame(s, e, c);
  }

  lemma CheckDecides(s: State, c: nat)
    requires Enabled(s, CheckSeen(c)) && s.clients[c].snap == NoSnap
    ensures c in Step(s, CheckSeen(c)).clients && Decided(Step(s, CheckSeen(c)).clients[c], s.lastSeen == 0)
  {
  }

  lemma {:induction false} NoSnapYet(trace: seq<State>, k: nat, c: nat)
    requires Run(trace) && k < |trace| && c in trace[k].clients && trace[k].clients[c].phase == Subscribed
    ensures trace[k].clients[c].snap == NoSnap
  {
    if k > 0 {
      var e := StepAt(trace, k - 1);
      ClientFrame(trace[k - 1], e, c);
      if c in trace[k - 1].clients {
        assert trace[k - 1].clients[c].phase == Subscribed;
        NoSnapYet(trace, k - 1, c);
      }
    }
  }

  lemma CheckedNext(trace: seq<State>, i: nat, c: nat)
    requires Run(trace) && ChecksAt(trace, i, c)
    ensures i + 1 < |trace| && c in trace[i + 1].clients && Decided(trace[i + 1].clients[c], trace[i].lastSeen == 0)
  {
    assert trace[i].clients[c].phase == Subscribed;
    NoSnapYet(trace, i, c);
    CheckDecides(trace[i], c);
    hide Step, Run, Decided;
  }

  /** A client is replayed a snapshot exactly if nothing had been reported seen when it looked. */
  lemma {:induction false} ReplayedIffUnseen(trace: seq<State>, i: nat, c: nat, k: nat)
    requires Run(trace) && ChecksAt(trace, i, c) && i < k < |trace|
    ensures c in trace[k].clients && Decided(trace[k].clients[c], trace[i].lastSeen == 0)
  {
    hide *;
    if k == i + 1 {
      CheckedNext(trace, i, c);
    } else {
      ReplayedIffUnseen(trace, i, c, k - 1);
      var e := StepAt(trace, k - 1);
      DecidedStep(trace[k - 1], e, c, trace[i].lastSeen == 0);
    }
  }

  ghost predicate PublishesAt(trace: seq<State>, i: nat, p: nat, kind: string, body: string) {
    && i + 1 < |trace|
    && Enabled(trace[i], Publish(p, kind, body)) && trace[i + 1] == Step(trace[i], Publish(p, kind, body))
  }

  lemma KeptStep(s: State, e: Event, p: nat, m: Msg)
    requires Enabled(s, e) && ((p in s.pubs && s.pubs[p] == Assigned(m)) || m in s.appended)
    requires m.kind in {"event", "text", "input", "commandresult", "clientcommand", "prompt"}
    ensures var t := Step(s, e); (p in t.pubs && t.pubs[p] == Assigned(m)) || m in t.appended
  {
  }

  /** What is published of the kinds that make history is put in it: from its numbering on a message
      waits with its publisher or is in the history. */
  lemma {:induction false} PublishedIsKept(trace: seq<State>, i: nat, p: nat, kind: string, body: string, k: nat)
    requires Run(trace) && PublishesAt(trace, i, p, kind, body) && i < k < |trace|
    requires kind in {"event", "text", "input", "commandresult", "clientcommand", "prompt"}
    ensures var m := ClientQueue.Msg(|trace[i].issued| + 1, kind, body);
      (p in trace[k].pubs && trace[k].pubs[p] == Assigned(m)) || m in trace[k].appended
  {
    hide *;
    if k == i + 1 {
      PublishedNext(trace, i, p, kind, body);
    } else {
      PublishedIsKept(trace, i, p, kind, body, k - 1);
      var e := StepAt(trace, k - 1);
      KeptStep(trace[k - 1], e, p, ClientQueue.Msg(|trace[i].issued| + 1, kind, body));
    }
  }

  lemma PublishedNext(trace: seq<State>, i: nat, p: nat, kind: string, body: string)
    requires PublishesAt(trace, i, p, kind, body)
    ensures i + 1 < |trace| && p in trace[i + 1].pubs
    ensures trace[i + 1].pubs[p] == Assigned(ClientQueue.Msg(|trace[i].issued| + 1, kind, body))
  {
  }

  /** And nothing else is. */
  lemma {:induction false} OnlyKeptKinds(trace: seq<State>, k: nat)
    requires Run(trace) && k < |trace|
    ensures forall m :: m in trace[k].appended ==>
              m.kind in {"event", "text", "input", "commandresult", "clientcommand", "prompt"}
  {
    if k > 0 {
      OnlyKeptKinds(trace, k - 1);
      var e := StepAt(trace, k - 1);
      RingFrame(trace[k - 1], e);
    }
  }

  /** An attached, open, replayed client and any message from the base of its snapshot on: what the
      snapshot covers has come once by replay, and once more if it also came live; what was appended
      later has come once, or not at all while its broadcast is under way. */
  lemma CoveredDelivers(s: State, c: nat, j: nat)
    requires Inv(s) && c in s.clients && s.clients[c].phase == Live && !s.clients[c].q.closed
    requires s.clients[c].snap.Snap? && s.clients[c].snap.base <= j < |s.appended|
    ensures var (a, m) := (s.clients[c], s.appended[j]);
      multiset(a.q.accepted)[m]
        == if j < a.snap.since then (if m in a.live then 2 else 1) else if Pending(s, c, m) then 0 else 1
    ensures s.appended[j] in s.clients[c].live ==> !Pending(s, c, s.appended[j])
  {
    hide *;
    OriginsCount(s, c, j);
    ReplayCount(s, c, j);
    LiveCount(s, c, j);
  }

  lemma OriginsCount(s: State, c: nat, j: nat)
    requires Inv(s) && c in s.clients && j < |s.appended|
    ensures var (a, m) := (s.clients[c], s.appended[j]);
      multiset(a.q.accepted)[m] == multiset(a.live)[m] + multiset(a.replayed)[m]
  {
    assert ClientOk(s, c);
    DirectIsApart(s, s.clients[c], j);
    hide Inv, DirectApart, LiveOnce, LiveComplete, ReplayOn;
  }

  /** The replay of a client that is live and open is the whole snapshot. */
  lemma ReplayIsSnapshot(s: State, c: nat)
    requires Inv(s) && c in s.clients && s.clients[c].phase == Live && !s.clients[c].q.closed
    requires s.clients[c].snap.Snap?
    ensures var snap := s.clients[c].snap;
      snap.base <= snap.since <= |s.appended| && s.clients[c].replayed == s.appended[snap.base..snap.since]
  {
    assert ClientOk(s, c);
    assert s.clients[c].replayed + [] == s.clients[c].replayed;
    hide Inv, DirectApart, LiveOnce, LiveComplete, Origins;
  }

  lemma ReplayCount(s: State, c: nat, j: nat)
    requires Inv(s) && c in s.clients && s.clients[c].phase == Live && !s.clients[c].q.closed
    requires s.clients[c].snap.Snap? && s.clients[c].snap.base <= j < |s.appended|
    ensures multiset(s.clients[c].replayed)[s.appended[j]] == if j < s.clients[c].snap.since then 1 else 0
  {
    var base, since := s.clients[c].snap.base, s.clients[c].snap.since;
    ReplayIsSnapshot(s, c);
    AppendedDiffer(s);
    hide *;
    DistinctCount(s.appended[base..since], s.appended[j]);
    if j < since {
      assert s.appended[j] == s.appended[base..since][j - base];
    }
  }

  lemma AppendedDiffer(s: State)
    requires Inv(s)
    ensures forall i, j :: 0 <= i < j < |s.appended| ==> s.appended[i] != s.appended[j]
  {
  }

  /** Live copies; of what came after the snapshot all are accounted for. */
  lemma LiveCount(s: State, c: nat, j: nat)
    requires Inv(s) && c in s.clients && s.clients[c].phase == Live && !s.clients[c].q.closed && j < |s.appended|
    ensures var (a, m) := (s.clients[c], s.appended[j]);
      && multiset(a.live)[m] == (if m in a.live then 1 else 0)
      && (m in a.live ==> !Pending(s, c, m))
      && (a.snap.Snap? && a.snap.since <= j ==> (m in a.live <==> !Pending(s, c, m)))
  {
    assert ClientOk(s, c);
    DistinctCount(s.clients[c].live, s.appended[j]);
    LiveNotPending(s, c, s.appended[j]);
    hide Inv, DirectApart, LiveOnce, Origins, Pending;
  }

  lemma DirectIsApart(s: State, a: Attach, j: nat)
    requires DirectApart(s, a) && j < |s.appended|
    ensures multiset(a.direct)[s.appended[j]] == 0
  {
    assert forall i :: 0 <= i < |a.direct| ==> a.direct[i] != s.appended[j];
  }

  lemma LiveNotPending(s: State, c: nat, m: Msg)
    requires c in s.clients && LiveOnce(s, c, s.clients[c])
    ensures m in s.clients[c].live ==> !Pending(s, c, m)
  {
  }

  lemma Covered(before: seq<Msg>, ring: seq<Msg>, after: seq<Msg>, m: Msg) returns (j: nat)
    requires before <= after && ring == Capped(before)
    requires m in ring || (m in after && m !in before)
    ensures |before| - |ring| <= j < |after| && after[j] == m
  {
    if m in ring {
      var k :| 0 <= k < |ring| && ring[k] == m;
      j := |before| - |ring| + k;
    } else {
      j :| 0 <= j < |after| && after[j] == m;
    }
  }

  // ------------------------------------------------------------- which broadcasts a client hears

  /** The broadcast of m takes subsMu, with client c subscribed. */
  ghost predicate LocksFor(s: State, t: State, c: nat, m: Msg) {
    c in s.subs && exists p :: Enabled(s, LockSubs(p)) && s.pubs[p].msg == m && t == Step(s, LockSubs(p))
  }

  /** It did before state k. */
  ghost predicate Heard(trace: seq<State>, k: nat, c: nat, m: Msg) {
    exists i :: 0 <= i < k < |trace| && LocksFor(trace[i], trace[i + 1], c, m)
  }

  ghost predicate BeingOffered(s: State, c: nat, m: Msg) {
    exists p :: p in s.pubs && s.pubs[p].Casting? && s.pubs[p].msg == m && c in s.pubs[p].rest
  }

  lemma HeardStays(trace: seq<State>, k: nat, c: nat, m: Msg)
    requires k + 1 < |trace|
    ensures Heard(trace, k + 1, c, m) <==> Heard(trace, k, c, m) || LocksFor(trace[k], trace[k + 1], c, m)
  {
    hide LocksFor;
  }

  /** What a step does to the broadcasts being offered. */
  lemma OfferFrame(s: State, e: Event, c: nat, m: Msg)
    requires Enabled(s, e) && BeingOffered(Step(s, e), c, m)
    ensures BeingOffered(s, c, m) || LocksFor(s, Step(s, e), c, m)
  {
    var t := Step(s, e);
    var p :| p in t.pubs && t.pubs[p].Casting? && t.pubs[p].msg == m && c in t.pubs[p].rest;
    if !(p in s.pubs && s.pubs[p].Casting?) {
      assert e == LockSubs(p);
    }
  }

  lemma OfferGoesOn(s: State, e: Event, c: nat, m: Msg)
    requires Enabled(s, e) && BeingOffered(s, c, m) && !(e.Offer? && e.c == c && s.pubs[e.p].msg == m)
    ensures BeingOffered(Step(s, e), c, m)
  {
    var t := Step(s, e);
    var p :| p in s.pubs && s.pubs[p].Casting? && s.pubs[p].msg == m && c in s.pubs[p].rest;
    assert p in t.pubs && t.pubs[p].Casting? && t.pubs[p].msg == m && c in t.pubs[p].rest;
  }

  lemma OfferBegins(s: State, e: Event, c: nat, m: Msg)
    requires Enabled(s, e) && LocksFor(s, Step(s, e), c, m)
    ensures BeingOffered(Step(s, e), c, m)
  {
    var p :| Enabled(s, LockSubs(p)) && s.pubs[p].msg == m && Step(s, e) == Step(s, LockSubs(p));
    assert Step(s, e).pubs[p] == Casting(m, s.subs);
  }

  /** A client is sent live exactly the broadcasts that took subsMu while it was subscribed, once
      they have come round to it. */
  lemma {:induction false} LiveIsHeard(trace: seq<State>, k: nat, c: nat, m: Msg)
    requires Run(trace) && k < |trace|
    ensures BeingOffered(trace[k], c, m) ==> Heard(trace, k, c, m)
    ensures c in trace[k].clients && m in trace[k].clients[c].live ==> Heard(trace, k, c, m)
    ensures Heard(trace, k, c, m) ==> c in trace[k].clients
    ensures Heard(trace, k, c, m) && !trace[k].clients[c].q.closed ==>
      m in trace[k].clients[c].live || BeingOffered(trace[k], c, m)
  {
    if k > 0 {
      hide Run, Heard, LocksFor, BeingOffered;
      var e := StepAt(trace, k - 1);
      LiveIsHeard(trace, k - 1, c, m);
      RunKeepsInv(trace, k - 1);
      HeardStays(trace, k - 1, c, m);
      HeardStep(trace[k - 1], e, c, m);
    }
  }

  /** The step of the same, on one state and the next. */
  lemma HeardStep(s: State, e: Event, c: nat, m: Msg)
    requires Inv(s) && Enabled(s, e)
    ensures var t := Step(s, e);
      && (BeingOffered(t, c, m) ==> BeingOffered(s, c, m) || LocksFor(s, t, c, m))
      && (c in t.clients && m in t.clients[c].live ==>
            (c in s.clients && m in s.clients[c].live) || BeingOffered(s, c, m))
      && (c in s.clients ==> c in t.clients)
      && (LocksFor(s, t, c, m) ==> c in s.clients && BeingOffered(t, c, m))
      && (c in s.clients && !t.clients[c].q.closed ==> !s.clients[c].q.closed)
      && (c in s.clients && !t.clients[c].q.closed && (m in s.clients[c].live || BeingOffered(s, c, m)) ==>
            m in t.clients[c].live || BeingOffered(t, c, m))
  {
    hide *;
    if BeingOffered(Step(s, e), c, m) { OfferFrame(s, e, c, m); }
    if LocksFor(s, Step(s, e), c, m) { HeardNow(s, e, c, m); }
    HeardBefore(s, e, c, m);
    HeardAfter(s, e, c, m);
  }

  lemma HeardBefore(s: State, e: Event, c: nat, m: Msg)
    requires Inv(s) && Enabled(s, e)
    ensures var t := Step(s, e);
      c in t.clients && m in t.clients[c].live ==>
        (c in s.clients && m in s.clients[c].live) || BeingOffered(s, c, m)
  {
    var t := Step(s, e);
    ClientFrame(s, e, c);
    hide Inv, BeingOffered;
    if c in s.clients {
      InvQueue(s, c);
      LiveFrame(s, e, c);
      OfferedNow(s, e, c);
    } else if e == Subscribe(c) {
      assert t.clients[c].live == [];
    }
  }

  lemma HeardNow(s: State, e: Event, c: nat, m: Msg)
    requires Inv(s) && Enabled(s, e) && LocksFor(s, Step(s, e), c, m)
    ensures c in s.clients && BeingOffered(Step(s, e), c, m)
  {
    OfferBegins(s, e, c, m);
    InvSubs(s, c);
    hide Inv, BeingOffered;
  }

  lemma HeardAfter(s: State, e: Event, c: nat, m: Msg)
    requires Inv(s) && Enabled(s, e)
    ensures var t := Step(s, e);
      && (c in s.clients ==> c in t.clients)
      && (c in s.clients && !t.clients[c].q.closed ==> !s.clients[c].q.closed)
      && (c in s.clients && !t.clients[c].q.closed && (m in s.clients[c].live || BeingOffered(s, c, m)) ==>
            m in t.clients[c].live || BeingOffered(t, c, m))
  {
    var t := Step(s, e);
    if BeingOffered(s, c, m) && !(e.Offer? && e.c == c && s.pubs[e.p].msg == m) { OfferGoesOn(s, e, c, m); }
    ClientFrame(s, e, c);
    hide Inv, BeingOffered;
    if c in s.clients {
      InvQueue(s, c);
      OpenBefore(s, e, c);
      LiveFrame(s, e, c);
      OfferIsLive(s, e, c);
    }
  }

  lemma OfferedNow(s: State, e: Event, c: nat)
    requires Enabled(s, e)
    ensures e.Offer? && e.c == c ==> BeingOffered(s, c, s.pubs[e.p].msg)
  {
  }

  lemma InvSubs(s: State, c: nat)
    requires Inv(s)
    ensures c in s.subs ==> c in s.clients
  {
  }

  lemma InvQueue(s: State, c: nat)
    requires Inv(s) && c in s.clients
    ensures ClientQueue.Inv(s.clients[c].q)
  {
    assert ClientOk(s, c);
  }

  lemma OfferIsLive(s: State, e: Event, c: nat)
    requires Enabled(s, e) && e.Offer? && e.c == c ==> c in s.clients
    ensures Enabled(s, e) && e.Offer? && e.c == c && !s.clients[c].q.closed ==>
      Step(s, e).clients[c].live == s.clients[c].live + [s.pubs[e.p].msg]
  {
  }

  // ------------------------------------------------------------- the guarantee

  /** The attach guarantee. A client that was replayed the ring, and is still attached and open, has
      accepted each message that was in the ring at the snapshot once, and once more exactly if its
      broadcast took subsMu after the client subscribed and has come round to it. Each message
      appended since it has accepted exactly once, unless its broadcast is still on its way. */
  lemma AttachDelivers(trace: seq<State>, i: nat, c: nat, m: Msg)
    requires Run(trace) && SnapshotAt(trace, i, c)
    requires var s := Last(trace); c in s.clients && s.clients[c].phase == Live && !s.clients[c].q.closed
    requires m in trace[i].ring || (m in Last(trace).appended && m !in trace[i].appended)
    ensures var s := Last(trace);
      multiset(s.clients[c].q.accepted)[m] ==
        if m !in trace[i].ring then (if Pending(s, c, m) then 0 else 1)
        else if Heard(trace, |trace| - 1, c, m) && !Pending(s, c, m) then 2
        else 1
  {
    hide *;
    SnapshotPlace(trace, i, c);
    var s, at := Last(trace), trace[i];
    LastIs(trace);
    RunKeepsInv(trace, |trace| - 1);
    RunKeepsInv(trace, i);
    InvCapped(at);
    SnapshotKept(trace, i, c, |trace| - 1);
    var j := Covered(at.appended, at.ring, s.appended, m);
    SnapshotCount(s, at.appended, at.ring, c, j);
    LiveIffHeard(trace, c, j);
  }

  lemma SnapshotCount(s: State, before: seq<Msg>, ring: seq<Msg>, c: nat, j: nat)
    requires Inv(s) && c in s.clients && s.clients[c].phase == Live && !s.clients[c].q.closed
    requires ring == Capped(before) && |ring| <= |before| && before <= s.appended
    requires s.clients[c].snap == Snap(|before| - |ring|, |before|) && |before| - |ring| <= j < |s.appended|
    ensures var (a, m) := (s.clients[c], s.appended[j]);
      multiset(a.q.accepted)[m]
        == if m !in ring then (if Pending(s, c, m) then 0 else 1) else if m in a.live then 2 else 1
  {
    hide *;
    InvRing(s);
    InRing(before, ring, s.appended, j);
    CoveredDelivers(s, c, j);
  }

  /** Of a message of the history, for a client that is open. */
  lemma LiveIffHeard(trace: seq<State>, c: nat, j: nat)
    requires Run(trace) && trace != [] && c in Last(trace).clients && !Last(trace).clients[c].q.closed
    requires j < |Last(trace).appended|
    ensures var (s, m) := (Last(trace), Last(trace).appended[j]);
      m in s.clients[c].live <==> Heard(trace, |trace| - 1, c, m) && !Pending(s, c, m)
  {
    hide *;
    var s, m := Last(trace), Last(trace).appended[j];
    LastIs(trace);
    RunKeepsInv(trace, |trace| - 1);
    LiveIsHeard(trace, |trace| - 1, c, m);
    OfferedIsPending(s, c, m);
    InvLive(s, c);
    LiveNotPending(s, c, m);
  }

  lemma InvLive(s: State, c: nat)
    requires Inv(s) && c in s.clients
    ensures LiveOnce(s, c, s.clients[c])
  {
    assert ClientOk(s, c);
  }

  lemma LastIs(trace: seq<State>)
    requires trace != []
    ensures Last(trace) == trace[|trace| - 1]
  {
  }

  lemma InvCapped(s: State)
    requires Inv(s)
    ensures s.ring == Capped(s.appended) && |s.ring| <= |s.appended|
  {
  }

  lemma InvRing(s: State)
    requires Inv(s)
    ensures RingOk(s) && s.ring == Capped(s.appended) && |s.ring| <= |s.appended|
    ensures forall x, y :: 0 <= x < y < |s.appended| ==> s.appended[x] != s.appended[y]
  {
  }

  lemma OfferedIsPending(s: State, c: nat, m: Msg)
    ensures BeingOffered(s, c, m) ==> Pending(s, c, m)
  {
  }

  /** A message of the history is in the ring as it was exactly if it stands in its range. */
  lemma InRing(before: seq<Msg>, ring: seq<Msg>, after: seq<Msg>, j: nat)
    requires before <= after && ring == Capped(before) && |before| - |ring| <= j < |after|
    requires forall x, y :: 0 <= x < y < |after| ==> after[x] != after[y]
    ensures after[j] in ring <==> j < |before|
  {
  }

  lemma SnapshotPlace(trace: seq<State>, i: nat, c: nat)
    requires SnapshotAt(trace, i, c)
    ensures i + 1 < |trace|
  {
  }

  lemma PendingNone(s: State, c: nat, m: Msg)
    requires s.pubs == map[]
    ensures !Pending(s, c, m)
  {
  }

  lemma SentIsAccepted(q: Client)
    requires ClientQueue.Inv(q) && !q.closed && q.writer == ClientQueue.Parked && !q.wake && q.nudgers == 0
    ensures q.sent == q.accepted
  {
    assert q.sent + q.hand + q.queue == q.sent;
  }

  /** With the client's queue drained and its writer parked, that is what reached the socket. */
  lemma AttachReachesSocket(trace: seq<State>, i: nat, c: nat, m: Msg)
    requires Run(trace) && SnapshotAt(trace, i, c)
    requires var s := Last(trace); c in s.clients && s.clients[c].phase == Live && !s.clients[c].q.closed
    requires m in trace[i].ring || (m in Last(trace).appended && m !in trace[i].appended)
    requires Last(trace).pubs == map[]
    requires var q := Last(trace).clients[c].q; q.writer == ClientQueue.Parked && !q.wake && q.nudgers == 0
    ensures multiset(Last(trace).clients[c].q.sent)[m]
      == if m in trace[i].ring && Heard(trace, |trace| - 1, c, m) then 2 else 1
  {
    hide *;
    SnapshotPlace(trace, i, c);
    AttachDelivers(trace, i, c, m);
    PendingNone(Last(trace), c, m);
    LastIs(trace);
    RunKeepsInv(trace, |trace| - 1);
    InvQueue(Last(trace), c);
    SentIsAccepted(Last(trace).clients[c].q);
  }

  /** A client that was not replayed anything accepts each message appended after it
      subscribed exactly once. */
  lemma UnreplayedExactlyOnce(trace: seq<State>, c: nat, j: nat)
    requires Run(trace)
    requires var s := Last(trace); c in s.clients && s.clients[c].phase == Live && !s.clients[c].q.closed
    requires Last(trace).clients[c].snap == NoSnap
    requires Last(trace).clients[c].joined <= j < |Last(trace).appended|
    requires Last(trace).pubs == map[]
    ensures multiset(Last(trace).clients[c].q.accepted)[Last(trace).appended[j]] == 1
  {
    RunKeepsInv(trace, |trace| - 1);
    var s := Last(trace);
    var a, m := s.clients[c], s.appended[j];
    assert ClientOk(s, c);
    assert !Pending(s, c, m);
    DistinctCount(a.live, m);
    assert m !in a.direct;
  }

  /** Two publishers can append in the opposite of id order, so the ring is in append
      order only. */
  lemma RingNeedNotFollowIds()
    ensures exists trace :: Run(trace) && |Last(trace).ring| == 2
              && Last(trace).ring[0].id == 2 && Last(trace).ring[1].id == 1
  {
    var m1, m2 := ClientQueue.Msg(1, "text", "a"), ClientQueue.Msg(2, "text", "b");
    var s0 := INITIAL;
    var s1 := State([m1], [], [], 0, map[0 := Assigned(m1)], Free, {}, map[]);
    var s2 := State([m1, m2], [], [], 0, map[0 := Assigned(m1), 1 := Assigned(m2)], Free, {}, map[]);
    var s3 := State([m1, m2], [m2], [m2], 0, map[0 := Assigned(m1), 1 := Ready(m2)], Free, {}, map[]);
    var s4 := State([m1, m2], [m2, m1], [m2, m1], 0, map[0 := Ready(m1), 1 := Ready(m2)], Free, {}, map[]);
    Hop(s0, Publish(0, "text", "a"), s1);
    Hop(s1, Publish(1, "text", "b"), s2);
    Hop(s2, AppendRing(1), s3);
    Hop(s3, AppendRing(0), s4);
    hide Next, Step, Enabled;
    var trace := [s0, s1, s2, s3, s4];
    assert Run(trace) && Last(trace) == s4;
  }

  /** Numbered, to be put in the ring, and not there yet. */
  predicate Unappended(s: State, p: nat) {
    p in s.pubs && s.pubs[p].Assigned? && Bufferable(s.pubs[p].msg.kind)
  }

  predicate Ascending(ring: seq<Msg>) {
    forall i, j :: 0 <= i < j < |ring| ==> ring[i].id < ring[j].id
  }

  /** The ring ascends, at most one message is numbered and not in it yet, and that one's id is
      higher than any in the ring. */
  ghost predicate OrderSafe(s: State) {
    && Ascending(s.ring)
    && (forall p, r :: Unappended(s, p) && Unappended(s, r) ==> p == r)
    && (forall p, i :: Unappended(s, p) && 0 <= i < |s.ring| ==> s.ring[i].id < s.pubs[p].msg.id)
  }

  /** Publishing one at a time, up to the append. */
  predicate InTurn(s: State, e: Event) {
    e.Publish? && Bufferable(e.kind) ==> forall p :: p in s.pubs ==> !Unappended(s, p)
  }

  ghost predicate SerialNext(s: State, t: State) {
    exists e :: Enabled(s, e) && InTurn(s, e) && t == Step(s, e)
  }

  ghost predicate SerialFrom(ss: seq<State>, s: State) {
    && ss != [] && ss[0] == s
    && forall i :: 0 <= i < |ss| - 1 ==> SerialNext(ss[i], ss[i + 1])
  }

  /** Ids ascend in the ring from s on, as long as messages are published one at a time. */
  ghost predicate StaysAscending(s: State) {
    forall ss :: SerialFrom(ss, s) ==> Ascending(Last(ss).ring)
  }

  /** Ids in the ring are ids given. */
  lemma RingIds(s: State)
    requires RingOk(s)
    ensures forall i :: 0 <= i < |s.ring| ==> s.ring[i].id <= |s.issued|
  {
    forall i | 0 <= i < |s.ring| ensures s.ring[i].id <= |s.issued| {
      var m := s.ring[i];
      assert m == s.appended[|s.appended| - |s.ring| + i];
      assert Issued(s, m);
    }
  }

  lemma AppendAscends(ring: seq<Msg>, m: Msg)
    requires Ascending(ring) && forall i :: 0 <= i < |ring| ==> ring[i].id < m.id
    ensures Ascending(Capped(ring + [m]))
  {
  }

  /** What a step does to the messages not in the ring yet. */
  lemma UnappendedFrame(s: State, e: Event, p: nat)
    requires Enabled(s, e) && Unappended(Step(s, e), p)
    ensures (Unappended(s, p) && Step(s, e).pubs[p].msg == s.pubs[p].msg && !(e.AppendRing? && e.p == p))
      || (e.Publish? && e.p == p && Bufferable(e.kind) && Step(s, e).pubs[p].msg.id == |s.issued| + 1)
  {
  }

  lemma SerialStepKeepsOrder(s: State, e: Event)
    requires Inv(s) && Enabled(s, e) && InTurn(s, e) && OrderSafe(s)
    ensures OrderSafe(Step(s, e))
  {
    var t := Step(s, e);
    RingFrame(s, e);
    InvRing(s);
    RingIds(s);
    if e.AppendRing? && Bufferable(s.pubs[e.p].msg.kind) {
      AppendAscends(s.ring, s.pubs[e.p].msg);
    }
    assert e.AppendRing? ==> Unappended(s, e.p) || Buffered(s, e) == [];
    assert Buffered(s, e) != [] ==> e.AppendRing?;
    hide Step, Enabled, Inv, RingOk;
    forall p, r | Unappended(t, p) && Unappended(t, r) ensures p == r {
      UnappendedFrame(s, e, p);
      UnappendedFrame(s, e, r);
    }
    forall p, i | Unappended(t, p) && 0 <= i < |t.ring| ensures t.ring[i].id < t.pubs[p].msg.id {
      UnappendedFrame(s, e, p);
      if Unappended(s, p) {
        assert Buffered(s, e) == [] && t.ring == s.ring;
      }
    }
  }

  lemma {:induction false} SerialKeepsOrder(ss: seq<State>, s: State, k: nat)
    requires SerialFrom(ss, s) && Inv(s) && OrderSafe(s) && k < |ss|
    ensures Inv(ss[k]) && OrderSafe(ss[k])
  {
    hide Inv, OrderSafe, SerialNext;
    if k > 0 {
      SerialKeepsOrder(ss, s, k - 1);
      assert SerialNext(ss[k - 1], ss[k - 1 + 1]);
      SerialNextKeeps(ss[k - 1], ss[k]);
    }
  }

  lemma SerialNextKeeps(s: State, t: State)
    requires SerialNext(s, t) && Inv(s) && OrderSafe(s)
    ensures Inv(t) && OrderSafe(t)
  {
    var e :| Enabled(s, e) && InTurn(s, e) && t == Step(s, e);
    hide *;
    SerialStepKeepsOrder(s, e);
    StepKeepsInv(s, e);
  }

  lemma OrderSafeStaysAscending(s: State)
    requires Inv(s) && OrderSafe(s)
    ensures StaysAscending(s)
  {
    hide Inv, Ascending;
    forall ss | SerialFrom(ss, s) ensures Ascending(Last(ss).ring) {
      SerialKeepsOrder(ss, s, |ss| - 1);
      assert OrderSafe(Last(ss));
    }
  }

  lemma SerialPrepended(s: State, e: Event)
    requires Enabled(s, e) && InTurn(s, e) && !StaysAscending(Step(s, e))
    ensures !StaysAscending(s)
  {
    var t := Step(s, e);
    assert SerialNext(s, t);
    hide SerialNext, Step, Enabled, Ascending;
    var ss :| SerialFrom(ss, t) && !Ascending(Last(ss).ring);
    assert SerialFrom([s] + ss, s) && Last([s] + ss) == Last(ss);
  }

  lemma NotAscending(s: State)
    requires !Ascending(s.ring)
    ensures !StaysAscending(s)
  {
    assert SerialFrom([s], s) && Last([s]) == s;
  }

  lemma LateAppend(ring: seq<Msg>, m: Msg)
    requires ring != [] && ring[|ring| - 1].id >= m.id
    ensures !Ascending(Capped(ring + [m]))
  {
    var late := Capped(ring + [m]);
    assert late[|late| - 1] == m && late[|late| - 2] == ring[|ring| - 1];
  }

  /** A message that is late for the ring spoils it. */
  lemma LateSpoils(s: State, p: nat)
    requires Inv(s) && Unappended(s, p) && s.ring != [] && s.ring[|s.ring| - 1].id >= s.pubs[p].msg.id
    ensures !StaysAscending(s)
  {
    LateAppend(s.ring, s.pubs[p].msg);
    NotAscending(Step(s, AppendRing(p)));
    SerialPrepended(s, AppendRing(p));
  }

  /** So do two messages that wait for it: the higher one may go first. */
  lemma TwoSpoil(s: State, p: nat, r: nat)
    requires Inv(s) && Unappended(s, p) && Unappended(s, r) && s.pubs[p].msg.id < s.pubs[r].msg.id
    ensures !StaysAscending(s)
  {
    var t := Step(s, AppendRing(r));
    StepKeepsInv(s, AppendRing(r));
    assert t.ring[|t.ring| - 1] == s.pubs[r].msg && Unappended(t, p) && t.pubs[p] == s.pubs[p];
    hide Inv, Step, Enabled;
    LateSpoils(t, p);
    SerialPrepended(s, AppendRing(r));
  }

  lemma PubIdsDiffer(s: State, p: nat, r: nat)
    requires Inv(s) && p in s.pubs && r in s.pubs && p != r
    ensures s.pubs[p].msg.id != s.pubs[r].msg.id
  {
    assert Issued(s, s.pubs[p].msg) && Issued(s, s.pubs[r].msg);
  }

  /** The exact condition for ids to ascend in the ring from now on. */
  lemma StaysAscendingIff(s: State)
    requires Inv(s)
    ensures StaysAscending(s) <==> OrderSafe(s)
  {
    hide Inv, StaysAscending;
    if OrderSafe(s) {
      OrderSafeStaysAscending(s);
    } else if !Ascending(s.ring) {
      NotAscending(s);
    } else if p, r :| Unappended(s, p) && Unappended(s, r) && p != r {
      PubIdsDiffer(s, p, r);
      if s.pubs[p].msg.id < s.pubs[r].msg.id { TwoSpoil(s, p, r); } else { TwoSpoil(s, r, p); }
    } else {
      var p, i :| Unappended(s, p) && 0 <= i < |s.ring| && s.ring[i].id >= s.pubs[p].msg.id;
      assert i < |s.ring| - 1 ==> s.ring[i].id < s.ring[|s.ring| - 1].id;
      LateSpoils(s, p);
    }
  }

  /** Over whole runs: in every state the ring is safe to ascend, if and only if messages for the ring
      are published one at a time up to the append. */
  lemma RingFollowsIdsIff(trace: seq<State>)
    requires Run(trace)
    ensures SerialFrom(trace, INITIAL) <==> forall k :: 0 <= k < |trace| ==> StaysAscending(trace[k])
  {
    RunKeepsInv(trace, 0);
    assert OrderSafe(INITIAL);
    hide Inv, StaysAscending, OrderSafe, SerialNext, Next;
    if SerialFrom(trace, INITIAL) {
      forall k | 0 <= k < |trace| ensures StaysAscending(trace[k]) {
        SerialKeepsOrder(trace, INITIAL, k);
        StaysAscendingIff(trace[k]);
      }
    }
    if forall k :: 0 <= k < |trace| ==> StaysAscending(trace[k]) {
      forall k | 0 <= k < |trace| - 1 ensures SerialNext(trace[k], trace[k + 1]) {
        RunKeepsInv(trace, k);
        RunKeepsInv(trace, k + 1);
        StaysAscendingIff(trace[k + 1]);
        assert Next(trace[k], trace[k + 1]);
        SafeStepIsSerial(trace[k], trace[k + 1]);
      }
    }
  }

  lemma SafeStepIsSerial(s: State, t: State)
    requires Inv(s) && Next(s, t) && OrderSafe(t)
    ensures SerialNext(s, t)
  {
    var e :| Enabled(s, e) && t == Step(s, e);
    if e.Publish? && Bufferable(e.kind) {
      forall p | p in s.pubs ensures !Unappended(s, p) {
        assert Unappended(t, e.p);
        assert Unappended(s, p) ==> Unappended(t, p);
      }
    }
    assert InTurn(s, e);
  }

  lemma Hop(s: State, e: Event, t: State)
    requires Enabled(s, e) && t == Step(s, e)
    ensures Next(s, t)
  {
  }

  /** A run in which client 7 attaches between the append and the broadcast of m. */
  function Visit(m: Msg, k: nat): State
    requires k < 9
  {
    var done := [m];
    var at := (phase: Phase, snap: Snap, q: Client, live: seq<Msg>, replayed: seq<Msg>) =>
      map[7 as nat := Attach(q, phase, 1, snap, live, replayed, [])];
    var once := ClientQueue.Append(ClientQueue.FRESH, m);
    match k
    case 0 => INITIAL
    case 1 => State(done, [], [], 0, map[0 := Assigned(m)], Free, {}, map[])
    case 2 => State(done, done, done, 0, map[0 := Ready(m)], Free, {}, map[])
    case 3 =>
      State(done, done, done, 0, map[0 := Ready(m)], Free, {7}, at(Subscribed, NoSnap, ClientQueue.FRESH, [], []))
    case 4 =>
      State(done, done, done, 0, map[0 := Casting(m, {7})], Held(0), {7},
            at(Subscribed, NoSnap, ClientQueue.FRESH, [], []))
    case 5 => State(done, done, done, 0, map[0 := Casting(m, {})], Held(0), {7}, at(Subscribed, NoSnap, once, done, []))
    case 6 => State(done, done, done, 0, map[0 := Casting(m, {})], Held(0), {7}, at(Snapping, NoSnap, once, done, []))
    case 7 =>
      State(done, done, done, 0, map[0 := Casting(m, {})], Held(0), {7},
            at(Replaying(done), Snap(0, 1), once, done, []))
    case _ => State(done, done, done, 0, map[0 := Casting(m, {})], Held(0), {7},
                    at(Replaying([]), Snap(0, 1), ClientQueue.Append(once, m), done, done))
  }

  lemma VisitSubscribes(m: Msg)
    requires m == ClientQueue.Msg(1, "text", "a")
    ensures Next(Visit(m, 0), Visit(m, 1)) && Next(Visit(m, 1), Visit(m, 2)) && Next(Visit(m, 2), Visit(m, 3))
  {
    Hop(Visit(m, 0), Publish(0, "text", "a"), Visit(m, 1));
    Hop(Visit(m, 1), AppendRing(0), Visit(m, 2));
    Hop(Visit(m, 2), Subscribe(7), Visit(m, 3));
  }

  lemma VisitHearsLive(m: Msg)
    requires m == ClientQueue.Msg(1, "text", "a")
    ensures Next(Visit(m, 3), Visit(m, 4)) && Next(Visit(m, 4), Visit(m, 5)) && Next(Visit(m, 5), Visit(m, 6))
  {
    Hop(Visit(m, 3), LockSubs(0), Visit(m, 4));
    assert [] + [m] == [m] && {7} - {7} == {};
    Hop(Visit(m, 4), Offer(0, 7), Visit(m, 5));
    Hop(Visit(m, 5), CheckSeen(7), Visit(m, 6));
  }

  lemma VisitSnaps(m: Msg)
    requires m == ClientQueue.Msg(1, "text", "a")
    ensures Next(Visit(m, 6), Visit(m, 7))
  {
    Hop(Visit(m, 6), TakeSnapshot(7), Visit(m, 7));
  }

  lemma VisitIsReplayed(m: Msg)
    requires m == ClientQueue.Msg(1, "text", "a")
    ensures Next(Visit(m, 7), Visit(m, 8))
  {
    assert [] + [m] == [m] && [m][1..] == [];
    Hop(Visit(m, 7), ReplayOne(7), Visit(m, 8));
  }

  lemma VisitAccepts(m: Msg)
    ensures 7 in Visit(m, 8).clients && multiset(Visit(m, 8).clients[7].q.accepted)[m] == 2
  {
    assert Visit(m, 8).clients[7].q.accepted == [] + [m] + [m];
  }

  lemma VisitRuns(m: Msg) returns (trace: seq<State>)
    requires m == ClientQueue.Msg(1, "text", "a")
    ensures Run(trace) && Last(trace) == Visit(m, 8)
  {
    hide Step, Enabled, Next;
    trace := seq(9, k requires 0 <= k < 9 => Visit(m, k));
    VisitSubscribes(m);
    VisitHearsLive(m);
    VisitSnaps(m);
    VisitIsReplayed(m);
  }

  /** The bound of two is met: a message appended before the snapshot and broadcast after
      the subscription arrives by both ways. */
  lemma TwiceHappens()
    ensures exists trace, c, m :: Run(trace) && c in Last(trace).clients
              && multiset(Last(trace).clients[c].q.accepted)[m] == 2
  {
    var m := ClientQueue.Msg(1, "text", "a");
    var trace := VisitRuns(m);
    VisitAccepts(m);
  }
}
