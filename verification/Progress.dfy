/** Nothing on a session waits for ever (internal/proxy/api/server.go): whoever holds the lock of the
    subscribers can finish, a message being published then reaches everybody, and a client that attaches
    comes to its writer with what it is owed in its queue. */
module Progress {
  import opened Delivery
  import ClientQueue

  // ------------------------------------------------------------- continuations

  /** These steps can be taken one after another. */
  predicate Can(s: State, es: seq<Event>)
    decreases |es|
  {
    es == [] || (Enabled(s, es[0]) && Can(Step(s, es[0]), es[1..]))
  }

  function Done(s: State, es: seq<Event>): State
    requires Can(s, es)
    decreases |es|
  {
    if es == [] then s else Done(Step(s, es[0]), es[1..])
  }

  lemma OneStep(s: State, e: Event)
    requires Enabled(s, e)
    ensures Can(s, [e]) && Done(s, [e]) == Step(s, e)
  {
    assert [e][1..] == [];
    assert Can(Step(s, e), []) && Done(Step(s, e), []) == Step(s, e);
  }

  lemma {:induction false} Join(s: State, es: seq<Event>, fs: seq<Event>)
    requires Can(s, es) && Can(Done(s, es), fs)
    ensures Can(s, es + fs) && Done(s, es + fs) == Done(Done(s, es), fs)
    decreases |es|
  {
    hide Enabled, Step;
    if es == [] {
      assert [] + fs == fs;
    } else {
      assert (es + fs)[1..] == es[1..] + fs && (es + fs)[0] == es[0];
      Join(Step(s, es[0]), es[1..], fs);
    }
  }

  // ------------------------------------------------------------- who holds what

  /** The lock is held by a publisher that is broadcasting, and whoever is to be sent to is there. */
  ghost predicate HeldOk(s: State) {
    && (s.holder.Held? ==> s.holder.p in s.pubs && s.pubs[s.holder.p].Casting?)
    && (forall p :: p in s.pubs && s.pubs[p].Emitting? ==> s.pubs[p].to in s.clients)
    && (forall p :: p in s.pubs && s.pubs[p].Casting? ==> s.holder == Held(p) && s.pubs[p].rest <= s.subs)
    && s.subs <= s.clients.Keys
  }

  lemma StepKeepsHeld(s: State, e: Event)
    requires HeldOk(s) && Enabled(s, e)
    ensures HeldOk(Step(s, e))
  {
  }

  lemma {:induction false} RunKeepsHeld(trace: seq<State>, k: nat)
    requires Run(trace) && k < |trace|
    ensures HeldOk(trace[k])
  {
    if k > 0 {
      hide *;
      var e := StepAt(trace, k - 1);
      RunKeepsHeld(trace, k - 1);
      StepKeepsHeld(trace[k - 1], e);
    } else {
      NobodyHolds(trace);
    }
  }

  lemma NobodyHolds(trace: seq<State>)
    requires Run(trace)
    ensures HeldOk(trace[0])
  {
  }

  // ------------------------------------------------------------- a broadcast ends

  /** The client after the message was offered to it: unless it is closed it has one message more, live
      and accepted. */
  ghost predicate Given(a: Attach, b: Attach, m: Msg) {
    && b.phase == a.phase && b.joined == a.joined && b.snap == a.snap
    && b.replayed == a.replayed && b.direct == a.direct
    && if a.q.closed then b == a else b.live == a.live + [m] && b.q.accepted == a.q.accepted + [m]
  }

  /** From s to u everybody in rest has been given m, and nothing else has happened to any client. */
  ghost predicate AllGiven(s: State, u: State, rest: set<nat>, m: Msg) {
    && u.clients.Keys == s.clients.Keys && rest <= s.clients.Keys
    && (forall c :: c in rest ==> Given(s.clients[c], u.clients[c], m))
    && (forall c :: c in s.clients && c !in rest ==> u.clients[c] == s.clients[c])
  }

  /** Nothing but publishers and clients has changed. */
  ghost predicate SameSession(s: State, u: State) {
    u.issued == s.issued && u.ring == s.ring && u.appended == s.appended && u.subs == s.subs && u.lastSeen == s.lastSeen
  }

  lemma OfferGives(s: State, p: nat, c: nat, m: Msg, rest: set<nat>)
    requires p in s.pubs && s.pubs[p] == Casting(m, rest) && c in rest && c in s.clients
    ensures Enabled(s, Offer(p, c))
    ensures var u := Step(s, Offer(p, c));
      && AllGiven(s, u, {c}, m) && SameSession(s, u) && u.holder == s.holder
      && u.pubs == s.pubs[p := Casting(m, rest - {c})]
  {
  }

  lemma GivenOn(s: State, t: State, u: State, c: nat, rest: set<nat>, m: Msg)
    requires c !in rest && AllGiven(s, t, {c}, m) && AllGiven(t, u, rest, m)
    ensures AllGiven(s, u, rest + {c}, m)
  {
    hide Given;
  }

  /** The holder of the lock gets through its subscribers and lets go. */
  lemma {:induction false} CastEnds(s: State, p: nat, m: Msg, rest: set<nat>) returns (es: seq<Event>)
    requires s.holder == Held(p) && p in s.pubs && s.pubs[p] == Casting(m, rest) && rest <= s.clients.Keys
    ensures Can(s, es)
    ensures var u := Done(s, es);
      && AllGiven(s, u, rest, m) && SameSession(s, u) && u.holder == Free && u.pubs == s.pubs - {p}
    decreases rest
  {
    if rest == {} {
      es := [Unlock(p)];
      OneStep(s, Unlock(p));
    } else {
      var c :| c in rest;
      OfferGives(s, p, c, m, rest);
      OneStep(s, Offer(p, c));
      var t := Step(s, Offer(p, c));
      hide Enabled, Step;
      var fs := CastEnds(t, p, m, rest - {c});
      hide *;
      Join(s, [Offer(p, c)], fs);
      es := [Offer(p, c)] + fs;
      GivenOn(s, t, Done(t, fs), c, rest - {c}, m);
      assert rest - {c} + {c} == rest;
      SameOn(s, t, Done(t, fs), p, Casting(m, rest - {c}));
    }
  }

  lemma SameOn(s: State, t: State, u: State, p: nat, pub: Pub)
    requires SameSession(s, t) && SameSession(t, u) && t.pubs == s.pubs[p := pub] && u.pubs == t.pubs - {p}
    ensures SameSession(s, u) && u.pubs == s.pubs - {p}
  {
  }

  /** Whoever holds the lock can let go of it, and the other publishers are as they were. */
  lemma LockComesFree(s: State) returns (es: seq<Event>)
    requires HeldOk(s)
    ensures Can(s, es)
    ensures var u := Done(s, es);
      && HeldOk(u) && u.holder == Free && SameSession(s, u)
      && (forall p :: p in s.pubs && !s.pubs[p].Casting? ==> p in u.pubs && u.pubs[p] == s.pubs[p])
      && (forall p :: p in s.pubs && s.pubs[p].Casting? ==> p !in u.pubs)
  {
    es := [];
    if s.holder.Held? {
      var p := s.holder.p;
      es := CastEnds(s, p, s.pubs[p].msg, s.pubs[p].rest);
    }
    HeldAfter(s, es);
  }

  lemma {:induction false} HeldAfter(s: State, es: seq<Event>)
    requires HeldOk(s) && Can(s, es)
    ensures HeldOk(Done(s, es))
    decreases |es|
  {
    if es != [] {
      hide HeldOk, Enabled, Step;
      StepKeepsHeld(s, es[0]);
      HeldAfter(Step(s, es[0]), es[1..]);
    }
  }

  /** A message under way, with the lock free: it can be broadcast, every open subscriber gets it, and if
      it had not been put in the history yet it is, when it is of a kind that is kept. */
  lemma PublishEnds(s: State, p: nat) returns (es: seq<Event>)
    requires HeldOk(s) && s.holder == Free && p in s.pubs && (s.pubs[p].Assigned? || s.pubs[p].Ready?)
    ensures Can(s, es)
    ensures var u := Done(s, es); var m := s.pubs[p].msg;
      && p !in u.pubs && u.holder == Free && AllGiven(s, u, s.subs, m)
      && u.appended == s.appended + if s.pubs[p].Assigned? && Bufferable(m.kind) then [m] else []
  {
    var m := s.pubs[p].msg;
    if s.pubs[p].Ready? {
      es := ReadyEnds(s, p, m);
      assert s.appended + [] == s.appended;
    } else {
      var e := AppendRing(p);
      OneStep(s, e);
      StepKeepsHeld(s, e);
      var t := Step(s, e);
      AppendKeepsClients(s, p);
      hide Enabled, Step, HeldOk, AllGiven;
      var fs := ReadyEnds(t, p, m);
      Join(s, [e], fs);
      es := [e] + fs;
      GivenFrom(s, t, Done(t, fs), m);
    }
  }

  lemma AppendKeepsClients(s: State, p: nat)
    requires Enabled(s, AppendRing(p))
    ensures var t := Step(s, AppendRing(p)); var m := s.pubs[p].msg;
      && t.clients == s.clients && t.subs == s.subs && t.holder == s.holder
      && p in t.pubs && t.pubs[p] == Ready(m)
      && t.appended == s.appended + if Bufferable(m.kind) then [m] else []
  {
  }

  lemma GivenFrom(s: State, t: State, u: State, m: Msg)
    requires t.clients == s.clients && t.subs == s.subs && AllGiven(t, u, t.subs, m)
    ensures AllGiven(s, u, s.subs, m)
  {
    hide Given;
  }

  lemma ReadyEnds(s: State, p: nat, m: Msg) returns (es: seq<Event>)
    requires HeldOk(s) && s.holder == Free && p in s.pubs && s.pubs[p] == Ready(m)
    ensures Can(s, es)
    ensures var u := Done(s, es);
      p !in u.pubs && u.holder == Free && AllGiven(s, u, s.subs, m) && u.appended == s.appended
  {
    var e := LockSubs(p);
    OneStep(s, e);
    var t := Step(s, e);
    assert t.pubs[p] == Casting(m, s.subs) && t.clients == s.clients && t.subs == s.subs && t.appended == s.appended;
    hide Enabled, Step;
    var fs := CastEnds(t, p, m, s.subs);
    Join(s, [e], fs);
    es := [e] + fs;
    hide AllGiven;
    GivenFrom(s, t, Done(t, fs), m);
  }

  /** In every run, whatever is under way: a publisher can finish, and no lock is in its way for good. */
  lemma PublisherFinishes(trace: seq<State>, p: nat) returns (es: seq<Event>)
    requires Run(trace) && p in Last(trace).pubs
    ensures Can(Last(trace), es) && p !in Done(Last(trace), es).pubs
  {
    var s := Last(trace);
    RunKeepsHeld(trace, |trace| - 1);
    if s.pubs[p].Emitting? {
      es := [EmitOffer(p)];
      OneStep(s, EmitOffer(p));
    } else {
      var first := LockComesFree(s);
      var t := Done(s, first);
      es := first;
      if p in t.pubs {
        hide *;
        assert t.pubs[p] == s.pubs[p] && !s.pubs[p].Casting?;
        var last := PublishEnds(t, p);
        Join(s, first, last);
        es := first + last;
      }
    }
  }

  // ------------------------------------------------------------- a client comes to its writer

  /** Client c walks through a replay that nobody disturbs. */
  ghost predicate Walked(s: State, u: State, c: nat, rest: seq<Msg>) {
    && SameSession(s, u) && u.holder == s.holder && u.pubs == s.pubs
    && c in s.clients && u.clients.Keys == s.clients.Keys
    && (forall d :: d in s.clients && d != c ==> u.clients[d] == s.clients[d])
    && u.clients[c].phase == Replaying([])
    && !u.clients[c].q.closed && u.clients[c].q.writer == ClientQueue.Unstarted
    && u.clients[c].q.queue == s.clients[c].q.queue + rest
  }

  lemma ReplayWalks(s: State, c: nat, rest: seq<Msg>) returns (es: seq<Event>)
    requires c in s.clients && s.clients[c].phase == Replaying(rest) && !s.clients[c].q.closed
    requires s.clients[c].q.writer == ClientQueue.Unstarted && |s.clients[c].q.queue| + |rest| <= 5000
    ensures Can(s, es) && Walked(s, Done(s, es), c, rest)
    decreases |rest|
  {
    if rest == [] {
      es := [];
      assert s.clients[c].q.queue + [] == s.clients[c].q.queue;
    } else {
      hide Enabled, Step, Can, Done;
      var e := ReplayOne(c);
      ReplayStep(s, c, rest);
      OneStep(s, e);
      var t := Step(s, e);
      var fs := ReplayWalks(t, c, rest[1..]);
      Join(s, [e], fs);
      es := [e] + fs;
      assert s.clients[c].q.queue + [rest[0]] + rest[1..] == s.clients[c].q.queue + rest;
    }
  }

  lemma ReplayStep(s: State, c: nat, rest: seq<Msg>)
    requires c in s.clients && s.clients[c].phase == Replaying(rest) && rest != [] && !s.clients[c].q.closed
    requires s.clients[c].q.writer == ClientQueue.Unstarted && |s.clients[c].q.queue| + |rest| <= 5000
    ensures Enabled(s, ReplayOne(c))
    ensures var t := Step(s, ReplayOne(c));
      && SameSession(s, t) && t.holder == s.holder && t.pubs == s.pubs && t.clients.Keys == s.clients.Keys
      && (forall d :: d in s.clients && d != c ==> t.clients[d] == s.clients[d])
      && t.clients[c].phase == Replaying(rest[1..]) && !t.clients[c].q.closed
      && t.clients[c].q.writer == ClientQueue.Unstarted && t.clients[c].q.queue == s.clients[c].q.queue + [rest[0]]
  {
  }

  /** A client that attaches can come to its writer, subscribed and connected; if nothing had been
      reported seen it then has the whole ring in its queue, and otherwise nothing. */
  lemma AttachEnds(trace: seq<State>, c: nat) returns (es: seq<Event>)
    requires Run(trace) && var s := Last(trace); c !in s.clients && s.holder == Free
    ensures Can(Last(trace), es)
    ensures var s := Last(trace); var u := Done(s, es);
      && c in u.clients && c in u.subs && u.clients[c].phase == Live && u.clients[c].q.writer == ClientQueue.Top
      && !u.clients[c].q.closed && u.clients[c].q.queue == if s.lastSeen == 0 then s.ring else []
  {
    var s := Last(trace);
    RingIsTailOfHistory(trace);
    hide Run;
    var first := Subscribing(s, c);
    var t := Done(s, first);
    hide *;
    var rest := if s.lastSeen == 0 then s.ring else [];
    var walk := ReplayWalks(t, c, rest);
    var v := Done(t, walk);
    WalkedIs(t, v, c, rest);
    Join(s, first, walk);
    StartsWriting(v, c);
    OneStep(v, StartWriter(c));
    Join(s, first + walk, [StartWriter(c)]);
    es := first + walk + [StartWriter(c)];
    assert [] + rest == rest;
  }

  lemma WalkedIs(s: State, u: State, c: nat, rest: seq<Msg>)
    requires Walked(s, u, c, rest)
    ensures SameSession(s, u) && c in s.clients && c in u.clients && u.subs == s.subs
    ensures u.clients[c].phase == Replaying([]) && !u.clients[c].q.closed
    ensures u.clients[c].q.writer == ClientQueue.Unstarted && u.clients[c].q.queue == s.clients[c].q.queue + rest
  {
  }

  lemma StartsWriting(s: State, c: nat)
    requires c in s.clients && s.clients[c].phase == Replaying([]) && s.clients[c].q.writer == ClientQueue.Unstarted
    ensures Enabled(s, StartWriter(c))
    ensures var u := Step(s, StartWriter(c));
      && c in u.clients && u.subs == s.subs && u.clients[c].phase == Live
      && u.clients[c].q == s.clients[c].q.(writer := ClientQueue.Top)
  {
  }

  lemma Subscribing(s: State, c: nat) returns (es: seq<Event>)
    requires c !in s.clients && s.holder == Free
    ensures Can(s, es)
    ensures var t := Done(s, es);
      && c in t.clients && c in t.subs
      && t.clients[c].phase == Replaying(if s.lastSeen == 0 then s.ring else [])
      && !t.clients[c].q.closed && t.clients[c].q.queue == [] && t.clients[c].q.writer == ClientQueue.Unstarted
  {
    var s1 := Step(s, Subscribe(c));
    OneStep(s, Subscribe(c));
    assert s1.lastSeen == s.lastSeen && s1.ring == s.ring;
    var s2 := Step(s1, CheckSeen(c));
    OneStep(s1, CheckSeen(c));
    Join(s, [Subscribe(c)], [CheckSeen(c)]);
    es := [Subscribe(c)] + [CheckSeen(c)];
    if s.lastSeen == 0 {
      assert s2.ring == s.ring;
      OneStep(s2, TakeSnapshot(c));
      Join(s, es, [TakeSnapshot(c)]);
      es := es + [TakeSnapshot(c)];
    }
  }
}
