/** The login rate limiter (internal/proxy/api/ratelimit.go). Times are plain integers that
    every call is given. */
module RateLimit {
  import opened Text

  datatype Record = Record(failures: nat, first: int, until: Option<int>)

  type Clients = map<string, Record>

  datatype Cfg = Cfg(maxFailures: int, window: int, lockout: int)

  /** newAuthLimiter replaces values that are not positive by defaults, so these hold. */
  predicate CfgOk(c: Cfg) {
    c.maxFailures > 0 && c.window > 0 && c.lockout > 0
  }

  datatype Answer = Answer(ok: bool, retryAfter: int)

  /** A record pruneLocked drops: its window has closed, or its lockout has been served. */
  predicate Dead(c: Cfg, r: Record, now: int) {
    match r.until
    case None => now - r.first > c.window
    case Some(u) => now > u
  }

  function Pruned(c: Cfg, m: Clients, now: int): Clients {
    map k | k in m && !Dead(c, m[k], now) :: m[k]
  }

  /** allow without the pruning. */
  function Admit(m: Clients, key: string, now: int): (Clients, Answer) {
    if key in m && m[key].until.Some? then
      var u := m[key].until.value;
      if now < u then (m, Answer(false, u - now)) else (m - {key}, Answer(true, 0))
    else (m, Answer(true, 0))
  }

  function Failed(c: Cfg, m: Clients, key: string, now: int): Clients {
    var r := if key in m && now - m[key].first <= c.window then m[key] else Record(0, now, None);
    var n := r.failures + 1;
    m[key := Record(n, r.first, if n >= c.maxFailures then Some(now + c.lockout) else r.until)]
  }

  datatype Op = Allow(key: string, now: int) | Fail(key: string, now: int) | Success(key: string)

  predicate IsFail(op: Op, key: string) {
    op.Fail? && op.key == key
  }

  /** One call; prune tells whether allow prunes first, as the code does. */
  function Step(c: Cfg, m: Clients, op: Op, prune: bool): Clients {
    match op
    case Allow(key, now) => Admit(if prune then Pruned(c, m, now) else m, key, now).0
    case Fail(key, now) => Failed(c, m, key, now)
    case Success(key) => m - {key}
  }

  function AnswerTo(c: Cfg, m: Clients, op: Op, prune: bool): Answer
    requires op.Allow?
  {
    Admit(if prune then Pruned(c, m, op.now) else m, op.key, op.now).1
  }

  function After(c: Cfg, ops: seq<Op>, prune: bool): Clients {
    if ops == [] then map[] else
      var n := |ops| - 1;
      Step(c, After(c, ops[..n], prune), ops[n], prune)
  }

  /** Every answer key was given, in order. */
  function Answers(c: Cfg, ops: seq<Op>, key: string, prune: bool): seq<Answer> {
    if ops == [] then [] else
      var n := |ops| - 1;
      Answers(c, ops[..n], key, prune)
      + if ops[n].Allow? && ops[n].key == key then [AnswerTo(c, After(c, ops[..n], prune), ops[n], prune)] else []
  }

  /** The time of the last timed call, t0 before any. */
  function Clock(ops: seq<Op>, t0: int): int {
    if ops == [] then t0 else
      var n := |ops| - 1;
      if ops[n].Success? then Clock(ops[..n], t0) else ops[n].now
  }

  /** Calls see a clock that starts at t0 and never runs backwards. */
  predicate Monotone(ops: seq<Op>, t0: int) {
    ops == [] ||
    var n := |ops| - 1;
    Monotone(ops[..n], t0) && (ops[n].Success? || Clock(ops[..n], t0) <= ops[n].now)
  }

  // ------------------------------------------------------------- pruning

  /** Records that lead to the same answers for ever after. With a single failure allowed,
      only the lockout matters. */
  predicate Same(c: Cfg, a: Record, b: Record) {
    a == b || (c.maxFailures == 1 && a.until.Some? && a.until == b.until)
  }

  /** As far as key goes, the pruned table is the full one, perhaps without a dead record. */
  ghost predicate Agree(c: Cfg, pruned: Clients, full: Clients, key: string, now: int) {
    && (key in pruned ==> key in full && Same(c, pruned[key], full[key]))
    && (key in full && key !in pruned ==> Dead(c, full[key], now))
    && (c.maxFailures == 1 && key in full ==> full[key].until.Some?)
  }

  /** If it is key's failure that is recorded, and key's record is dead, it reopens the window. */
  predicate FreshStart(c: Cfg, full: Clients, op: Op, key: string) {
    IsFail(op, key) && key in full && Dead(c, full[key], op.now) ==>
      op.now - full[key].first > c.window || c.maxFailures == 1
  }

  lemma StepAgrees(c: Cfg, pruned: Clients, full: Clients, op: Op, key: string, before: int)
    requires CfgOk(c) && Agree(c, pruned, full, key, before) && FreshStart(c, full, op, key)
    requires !op.Success? ==> before <= op.now
    ensures Agree(c, Step(c, pruned, op, true), Step(c, full, op, false), key, if op.Success? then before else op.now)
    ensures op.Allow? && op.key == key ==> AnswerTo(c, pruned, op, true) == AnswerTo(c, full, op, false)
  {
  }

  ghost predicate FreshRun(c: Cfg, ops: seq<Op>, key: string) {
    forall k :: 0 <= k < |ops| ==> FreshStart(c, After(c, ops[..k], false), ops[k], key)
  }

  lemma {:induction false} RunsAgree(c: Cfg, ops: seq<Op>, key: string, t0: int)
    requires CfgOk(c) && Monotone(ops, t0) && FreshRun(c, ops, key)
    ensures Agree(c, After(c, ops, true), After(c, ops, false), key, Clock(ops, t0))
    ensures Answers(c, ops, key, true) == Answers(c, ops, key, false)
  {
    if ops != [] {
      var n := |ops| - 1;
      var init := ops[..n];
      assert forall k :: 0 <= k < n ==> init[..k] == ops[..k];
      hide Step, AnswerTo, Agree, FreshStart;
      RunsAgree(c, init, key, t0);
      StepAgrees(c, After(c, init, true), After(c, init, false), ops[n], key, Clock(init, t0));
    } else {
      assert Agree(c, map[], map[], key, t0);
    }
  }

  /** Records are not from the future, and a lockout lasts from its first failure on at least
      as long as lockouts do. */
  ghost predicate Dated(c: Cfg, m: Clients, now: int) {
    forall k :: k in m ==>
      m[k].first <= now && (m[k].until.Some? ==> m[k].until.value >= m[k].first + c.lockout)
  }

  lemma {:induction false} RunIsDated(c: Cfg, ops: seq<Op>, prune: bool, t0: int)
    requires CfgOk(c) && Monotone(ops, t0)
    ensures Dated(c, After(c, ops, prune), Clock(ops, t0))
  {
    if ops != [] {
      RunIsDated(c, ops[..|ops| - 1], prune, t0);
    }
  }

  lemma {:induction false} MonotonePrefix(ops: seq<Op>, t0: int, n: nat)
    requires Monotone(ops, t0) && n <= |ops|
    ensures Monotone(ops[..n], t0)
    ensures n < |ops| && !ops[n].Success? ==> Clock(ops[..n], t0) <= ops[n].now
    decreases |ops|
  {
    if n < |ops| - 1 {
      assert ops[..|ops| - 1][..n] == ops[..n];
      MonotonePrefix(ops[..|ops| - 1], t0, n);
    } else if n == |ops| {
      assert ops[..n] == ops;
    }
  }

  lemma PruningHidesNothing(c: Cfg, ops: seq<Op>, key: string, t0: int)
    requires CfgOk(c) && Monotone(ops, t0)
    requires c.lockout >= c.window || c.maxFailures == 1
    ensures Answers(c, ops, key, true) == Answers(c, ops, key, false)
  {
    forall k | 0 <= k < |ops| ensures FreshStart(c, After(c, ops[..k], false), ops[k], key) {
      MonotonePrefix(ops, t0, k);
      RunIsDated(c, ops[..k], false, t0);
    }
    RunsAgree(c, ops, key, t0);
  }

  function Burst(n: nat): seq<Op> {
    seq(n, _ => Fail("a", 0))
  }

  lemma {:induction false} AfterBurst(c: Cfg, n: nat, prune: bool)
    requires CfgOk(c) && n > 0
    ensures After(c, Burst(n), prune) == map["a" := Record(n, 0, if n >= c.maxFailures then Some(c.lockout) else None)]
    ensures Monotone(Burst(n), 0) && Clock(Burst(n), 0) == 0
  {
    assert Burst(n)[..n - 1] == Burst(n - 1);
    if n == 1 {
      assert Burst(0) == [];
    } else {
      AfterBurst(c, n - 1, prune);
    }
  }

  /** A client locked out by a burst whose lockout has been served: another client's login
      prunes its record, so its next failure -- of an attempt admitted before the burst --
      starts afresh instead of locking it out again. */
  function Late(c: Cfg): seq<Op>
    requires CfgOk(c)
  {
    [Allow("b", c.lockout + 1), Fail("a", c.lockout + 1), Allow("a", c.lockout + 1)]
  }

  lemma AppendOp(c: Cfg, ops: seq<Op>, op: Op, prune: bool, key: string, t0: int)
    ensures After(c, ops + [op], prune) == Step(c, After(c, ops, prune), op, prune)
    ensures Monotone(ops, t0) && (op.Success? || Clock(ops, t0) <= op.now) ==> Monotone(ops + [op], t0)
    ensures !op.Success? ==> Clock(ops + [op], t0) == op.now
    ensures Answers(c, ops + [op], key, prune) == Answers(c, ops, key, prune)
              + if op.Allow? && op.key == key then [AnswerTo(c, After(c, ops, prune), op, prune)] else []
  {
    assert (ops + [op])[..|ops|] == ops;
  }

  lemma {:induction false} BurstAsksNothing(c: Cfg, n: nat, prune: bool)
    ensures Answers(c, Burst(n), "a", prune) == []
  {
    if n > 0 {
      assert Burst(n)[..n - 1] == Burst(n - 1);
      BurstAsksNothing(c, n - 1, prune);
    }
  }

  /** The table after the burst and the other client's login. */
  lemma AfterVisit(c: Cfg, prune: bool)
    requires CfgOk(c) && c.lockout < c.window && c.maxFailures > 1
    ensures var full := After(c, Burst(c.maxFailures), prune);
      Step(c, full, Allow("b", c.lockout + 1), prune) == if prune then map[] else full
  {
    AfterBurst(c, c.maxFailures, prune);
  }

  /** The late failure and the next attempt. */
  lemma AfterLateFailure(c: Cfg, prune: bool)
    requires CfgOk(c) && c.lockout < c.window && c.maxFailures > 1
    ensures var (full, t) := (After(c, Burst(c.maxFailures), prune), c.lockout + 1);
      var m := Step(c, if prune then map[] else full, Fail("a", t), prune);
      AnswerTo(c, m, Allow("a", t), prune) == if prune then Answer(true, 0) else Answer(false, c.lockout)
  {
    AfterBurst(c, c.maxFailures, prune);
  }

  lemma LateAnswer(c: Cfg, prune: bool)
    requires CfgOk(c) && c.lockout < c.window && c.maxFailures > 1
    ensures var ops := Burst(c.maxFailures) + Late(c);
            && Monotone(ops, 0)
            && Answers(c, ops, "a", prune) == [if prune then Answer(true, 0) else Answer(false, c.lockout)]
  {
    var t := c.lockout + 1;
    var ops0 := Burst(c.maxFailures);
    var ops1 := ops0 + [Allow("b", t)];
    var ops2 := ops1 + [Fail("a", t)];
    assert ops0 + Late(c) == ops2 + [Allow("a", t)];
    AfterBurst(c, c.maxFailures, prune);
    BurstAsksNothing(c, c.maxFailures, prune);
    AfterVisit(c, prune);
    AfterLateFailure(c, prune);
    hide *;
    AppendOp(c, ops0, Allow("b", t), prune, "a", 0);
    AppendOp(c, ops1, Fail("a", t), prune, "a", 0);
    AppendOp(c, ops2, Allow("a", t), prune, "a", 0);
  }

  /** Pruning never changes any answer, in any run at all, exactly when a lockout is at least
      as long as the window or a single failure locks a client out. */
  lemma PruningTransparentIff(c: Cfg)
    requires CfgOk(c)
    ensures (forall ops, key :: Monotone(ops, 0) ==> Answers(c, ops, key, true) == Answers(c, ops, key, false))
            <==> c.lockout >= c.window || c.maxFailures == 1
  {
    if c.lockout >= c.window || c.maxFailures == 1 {
      forall ops, key | Monotone(ops, 0) ensures Answers(c, ops, key, true) == Answers(c, ops, key, false) {
        PruningHidesNothing(c, ops, key, 0);
      }
    } else {
      LateAnswer(c, true);
      LateAnswer(c, false);
    }
  }

  // ------------------------------------------------------------- one attempt at a time

  /** The client has been admitted and its failure is still to be recorded. */
  function Trying(c: Cfg, ops: seq<Op>, key: string, prune: bool): bool {
    if ops == [] then false else
      var n := |ops| - 1;
      if ops[n].key != key then Trying(c, ops[..n], key, prune)
      else ops[n].Allow? && AnswerTo(c, After(c, ops[..n], prune), ops[n], prune).ok
  }

  /** Every failure of the client is recorded after it was admitted and before it asks again. */
  predicate OneAtATime(c: Cfg, ops: seq<Op>, key: string, prune: bool) {
    ops == [] ||
    var n := |ops| - 1;
    OneAtATime(c, ops[..n], key, prune)
    && (IsFail(ops[n], key) ==> Trying(c, ops[..n], key, prune))
  }

  lemma {:induction false} TryingIsNotLocked(c: Cfg, ops: seq<Op>, key: string, prune: bool)
    requires Trying(c, ops, key, prune)
    ensures key in After(c, ops, prune) ==> After(c, ops, prune)[key].until.None?
  {
    var n := |ops| - 1;
    if ops[n].key != key {
      TryingIsNotLocked(c, ops[..n], key, prune);
    }
  }

  /** Nor does it ever change an answer, whatever the limits, of a client that waits for each
      attempt to be settled. */
  lemma PruningHidesNothingInTurn(c: Cfg, ops: seq<Op>, key: string, t0: int)
    requires CfgOk(c) && Monotone(ops, t0) && OneAtATime(c, ops, key, false)
    ensures Answers(c, ops, key, true) == Answers(c, ops, key, false)
  {
    forall n | 0 <= n < |ops| ensures FreshStart(c, After(c, ops[..n], false), ops[n], key) {
      if IsFail(ops[n], key) {
        InTurnPrefix(c, ops, key, n);
        TryingIsNotLocked(c, ops[..n], key, false);
      }
    }
    RunsAgree(c, ops, key, t0);
  }

  lemma {:induction false} InTurnPrefix(c: Cfg, ops: seq<Op>, key: string, n: nat)
    requires n < |ops| && IsFail(ops[n], key) && OneAtATime(c, ops, key, false)
    ensures Trying(c, ops[..n], key, false)
    decreases |ops|
  {
    if n < |ops| - 1 {
      assert ops[..|ops| - 1][..n] == ops[..n];
      InTurnPrefix(c, ops[..|ops| - 1], key, n);
    }
  }

  // ------------------------------------------------------------- keys

  /** The calls about one client. */
  function Only(ops: seq<Op>, key: string): seq<Op> {
    if ops == [] then [] else
      var n := |ops| - 1;
      Only(ops[..n], key) + if ops[n].key == key then [ops[n]] else []
  }

  function Lookup(m: Clients, key: string): Option<Record> {
    if key in m then Some(m[key]) else None
  }

  lemma StepLooksOnlyAtItsKey(c: Cfg, a: Clients, b: Clients, op: Op, key: string)
    requires Lookup(a, key) == Lookup(b, key)
    ensures op.key == key ==> Lookup(Step(c, a, op, false), key) == Lookup(Step(c, b, op, false), key)
    ensures op.key != key ==> Lookup(Step(c, a, op, false), key) == Lookup(a, key)
    ensures op.key == key && op.Allow? ==> AnswerTo(c, a, op, false) == AnswerTo(c, b, op, false)
  {
  }

  lemma {:induction false} UnprunedKeysApart(c: Cfg, ops: seq<Op>, key: string)
    ensures Answers(c, ops, key, false) == Answers(c, Only(ops, key), key, false)
    ensures Lookup(After(c, ops, false), key) == Lookup(After(c, Only(ops, key), false), key)
  {
    if ops != [] {
      hide Step, AnswerTo, Lookup;
      var init, op := ops[..|ops| - 1], ops[|ops| - 1];
      var front := Only(init, key);
      UnprunedKeysApart(c, init, key);
      StepLooksOnlyAtItsKey(c, After(c, init, false), After(c, front, false), op, key);
      if op.key == key {
        AppendOp(c, front, op, false, key, 0);
        assert Only(ops, key) == front + [op];
      } else {
        assert Only(ops, key) == front;
      }
    }
  }

  lemma {:induction false} OnlyIsMonotone(ops: seq<Op>, key: string, t0: int)
    requires Monotone(ops, t0)
    ensures Monotone(Only(ops, key), t0) && Clock(Only(ops, key), t0) <= Clock(ops, t0)
  {
    if ops != [] {
      var n := |ops| - 1;
      OnlyIsMonotone(ops[..n], key, t0);
      var front := Only(ops[..n], key);
      if ops[n].key == key {
        assert Only(ops, key) == front + [ops[n]];
        assert (front + [ops[n]])[..|front|] == front;
      } else {
        assert Only(ops, key) == front;
      }
    }
  }

  /** One client's calls do not affect another's answers under these limits. */
  lemma KeysApart(c: Cfg, ops: seq<Op>, key: string, t0: int)
    requires CfgOk(c) && Monotone(ops, t0)
    requires c.lockout >= c.window || c.maxFailures == 1
    ensures Answers(c, ops, key, true) == Answers(c, Only(ops, key), key, true)
  {
    PruningHidesNothing(c, ops, key, t0);
    UnprunedKeysApart(c, ops, key);
    OnlyIsMonotone(ops, key, t0);
    PruningHidesNothing(c, Only(ops, key), key, t0);
  }

  lemma {:induction false} OnlyInTurn(c: Cfg, ops: seq<Op>, key: string)
    requires OneAtATime(c, ops, key, false)
    ensures OneAtATime(c, Only(ops, key), key, false)
    ensures Trying(c, Only(ops, key), key, false) == Trying(c, ops, key, false)
  {
    if ops != [] {
      var init, op := ops[..|ops| - 1], ops[|ops| - 1];
      var front := Only(init, key);
      OnlyInTurn(c, init, key);
      UnprunedKeysApart(c, init, key);
      hide Step, AnswerTo, Lookup;
      StepLooksOnlyAtItsKey(c, After(c, init, false), After(c, front, false), op, key);
      if op.key == key {
        assert Only(ops, key) == front + [op] && (front + [op])[..|front|] == front;
      } else {
        assert Only(ops, key) == front;
      }
    }
  }

  /** Under any limits they do not affect the answers of a client that waits for each attempt to be
      settled. */
  lemma KeysApartInTurn(c: Cfg, ops: seq<Op>, key: string, t0: int)
    requires CfgOk(c) && Monotone(ops, t0) && OneAtATime(c, ops, key, false)
    ensures Answers(c, ops, key, true) == Answers(c, Only(ops, key), key, true)
  {
    PruningHidesNothingInTurn(c, ops, key, t0);
    UnprunedKeysApart(c, ops, key);
    OnlyIsMonotone(ops, key, t0);
    OnlyInTurn(c, ops, key);
    PruningHidesNothingInTurn(c, Only(ops, key), key, t0);
  }

  lemma {:induction false} OnlyBurst(n: nat)
    ensures Only(Burst(n), "a") == Burst(n)
  {
    if n > 0 {
      assert Burst(n)[..n - 1] == Burst(n - 1);
      OnlyBurst(n - 1);
      assert Burst(n) == Burst(n - 1) + [Fail("a", 0)];
    } else {
      assert Burst(0) == [];
    }
  }

  lemma OnlySnoc(ops: seq<Op>, op: Op, key: string)
    ensures Only(ops + [op], key) == Only(ops, key) + if op.key == key then [op] else []
  {
    assert (ops + [op])[..|ops|] == ops;
  }

  lemma LateParts(c: Cfg, ops: seq<Op>)
    requires CfgOk(c)
    ensures var t := c.lockout + 1;
      ops + Late(c) == ops + [Allow("b", t)] + [Fail("a", t)] + [Allow("a", t)]
  {
  }

  lemma LateFailureAlone(c: Cfg)
    requires CfgOk(c) && c.lockout < c.window && c.maxFailures > 1
    ensures var t := c.lockout + 1;
      var m := Step(c, After(c, Burst(c.maxFailures), true), Fail("a", t), true);
      AnswerTo(c, m, Allow("a", t), true) == Answer(false, c.lockout)
  {
    AfterBurst(c, c.maxFailures, true);
  }

  /** The late client's answer when nobody else logs in meanwhile. */
  lemma LateAnswerAlone(c: Cfg)
    requires CfgOk(c) && c.lockout < c.window && c.maxFailures > 1
    ensures Answers(c, Only(Burst(c.maxFailures) + Late(c), "a"), "a", true) == [Answer(false, c.lockout)]
  {
    var t := c.lockout + 1;
    var ops0 := Burst(c.maxFailures);
    var ops1 := ops0 + [Fail("a", t)];
    hide *;
    LateParts(c, ops0);
    BurstAsksNothing(c, c.maxFailures, true);
    LateFailureAlone(c);
    OnlyBurst(c.maxFailures);
    assert "b"[0] != "a"[0];
    OnlySnoc(ops0, Allow("b", t), "a");
    assert ops0 + [] == ops0;
    OnlySnoc(ops0 + [Allow("b", t)], Fail("a", t), "a");
    OnlySnoc(ops0 + [Allow("b", t)] + [Fail("a", t)], Allow("a", t), "a");
    AppendOp(c, ops0, Fail("a", t), true, "a", 0);
    AppendOp(c, ops1, Allow("a", t), true, "a", 0);
  }

  /** A client's answers are always those it would get alone, exactly when a lockout is at least as
      long as the window or a single failure locks a client out. */
  lemma KeysApartIff(c: Cfg)
    requires CfgOk(c)
    ensures (forall ops, key :: Monotone(ops, 0) ==>
               Answers(c, ops, key, true) == Answers(c, Only(ops, key), key, true))
            <==> c.lockout >= c.window || c.maxFailures == 1
  {
    if c.lockout >= c.window || c.maxFailures == 1 {
      forall ops, key | Monotone(ops, 0)
        ensures Answers(c, ops, key, true) == Answers(c, Only(ops, key), key, true)
      {
        KeysApart(c, ops, key, 0);
      }
    } else {
      LateAnswer(c, true);
      LateAnswerAlone(c);
    }
  }

  // ------------------------------------------------------------- the bound

  /** When the client's failures since its last success were recorded. */
  function FailTimes(ops: seq<Op>, key: string): seq<int> {
    if ops == [] || ops[|ops| - 1] == Success(key) then [] else
      var n := |ops| - 1;
      FailTimes(ops[..n], key) + if IsFail(ops[n], key) then [ops[n].now] else []
  }

  function Period(c: Cfg): int {
    if c.window < c.lockout then c.window else c.lockout
  }

  /** There are at most cap of them, and cap more for each period between the first and the last. */
  predicate Within(times: seq<int>, period: int, cap: int)
    requires times != []
  {
    |times| * period <= cap * (period + times[|times| - 1] - times[0])
  }

  /** The failures fall into rounds of at most cap, one per record the client has had; each round
      starts at least Period after the one before. rounds counts those over. In a round that has
      locked the client out, due more failures may still be recorded. */
  ghost predicate Rounds(
    c: Cfg, m: Clients, key: string, now: int, times: seq<int>, rounds: nat, cap: nat, due: nat)
  {
    var open := if key in m then m[key].failures else 0;
    && |times| <= cap * rounds + open
    && (times != [] ==> times[|times| - 1] <= now)
    && (key in m ==>
          && 0 < open <= cap && times != []
          && times[0] + rounds * Period(c) <= m[key].first <= times[|times| - 1]
          && (m[key].until.None? ==> open < c.maxFailures)
          && (m[key].until.Some? ==> open + due <= cap && m[key].until.value >= m[key].first + c.lockout))
    && (key !in m && times != [] ==>
          && rounds > 0 && times[0] + rounds * Period(c) <= now
          && times[0] + (rounds - 1) * Period(c) <= times[|times| - 1])
    && (times == [] ==> rounds == 0)
  }

  lemma RoundOver(
    c: Cfg, m: Clients, m': Clients, key: string, before: int, now: int, times: seq<int>, rounds: nat,
    cap: nat, due: nat, due': nat)
    requires CfgOk(c) && Rounds(c, m, key, before, times, rounds, cap, due) && before <= now
    requires key in m && key !in m' && now >= m[key].first + Period(c)
    ensures Rounds(c, m', key, now, times, rounds + 1, cap, due')
  {
    assert cap * (rounds + 1) == cap * rounds + cap;
    assert (rounds + 1) * Period(c) == rounds * Period(c) + Period(c);
  }

  lemma AllowKeepsRounds(
    c: Cfg, m: Clients, op: Op, key: string, before: int, times: seq<int>, rounds: nat, cap: nat, due: nat, due': nat)
      returns (after: nat)
    requires CfgOk(c) && Rounds(c, m, key, before, times, rounds, cap, due) && op.Allow? && before <= op.now
    requires (op.key == key && AnswerTo(c, m, op, true).ok) || due' <= due
    ensures Rounds(c, Step(c, m, op, true), key, op.now, times, after, cap, due')
  {
    var m' := Step(c, m, op, true);
    if key in m && key !in m' {
      RoundOver(c, m, m', key, before, op.now, times, rounds, cap, due, due');
      after := rounds + 1;
    } else {
      after := rounds;
    }
  }

  lemma FailKeepsRounds(
    c: Cfg, m: Clients, key: string, now: int, before: int, times: seq<int>, rounds: nat, cap: nat, due: nat, due': nat)
      returns (after: nat)
    requires CfgOk(c) && Rounds(c, m, key, before, times, rounds, cap, due) && before <= now
    requires c.maxFailures + due' <= cap
    requires key in m && m[key].until.Some? ==> due' + 1 <= due
    ensures Rounds(c, Failed(c, m, key, now), key, now, times + [now], after, cap, due')
  {
    var times' := times + [now];
    assert times'[|times'| - 1] == now && (times != [] ==> times'[0] == times[0]);
    if key in m && now - m[key].first > c.window {
      RoundOver(c, m, m - {key}, key, before, now, times, rounds, cap, due, due');
      after := rounds + 1;
    } else {
      after := rounds;
    }
  }

  lemma {:induction false} RunHasRounds(c: Cfg, ops: seq<Op>, key: string, t0: int) returns (rounds: nat)
    requires CfgOk(c) && Monotone(ops, t0) && OneAtATime(c, ops, key, true)
    ensures Rounds(c, After(c, ops, true), key, Clock(ops, t0), FailTimes(ops, key), rounds, c.maxFailures, 0)
    decreases |ops|
  {
    if ops == [] || ops[|ops| - 1] == Success(key) {
      return 0;
    }
    var n := |ops| - 1;
    var init, op := ops[..n], ops[n];
    rounds := RunHasRounds(c, init, key, t0);
    var m, times := After(c, init, true), FailTimes(init, key);
    if op.Allow? {
      rounds := AllowKeepsRounds(c, m, op, key, Clock(init, t0), times, rounds, c.maxFailures, 0, 0);
    } else if IsFail(op, key) {
      TryingIsNotLocked(c, init, key, true);
      rounds := FailKeepsRounds(c, m, key, op.now, Clock(init, t0), times, rounds, c.maxFailures, 0, 0);
    }
  }

  lemma BoundOfRounds(n: nat, f: int, past: nat, p: int, span: int)
    requires n <= f * (past + 1) && past * p <= span && f > 0 && p > 0
    ensures n * p <= f * (p + span)
  {
  }

  lemma RoundsBound(c: Cfg, m: Clients, key: string, now: int, times: seq<int>, rounds: nat, cap: nat, due: nat)
    requires CfgOk(c) && Rounds(c, m, key, now, times, rounds, cap, due) && times != [] && cap > 0
    ensures Within(times, Period(c), cap)
  {
    var past := if key in m then rounds else rounds - 1;
    assert cap * (past + 1) == cap * past + cap;
    BoundOfRounds(|times|, cap, past, Period(c), times[|times| - 1] - times[0]);
  }

  /** The bound. Whatever other clients do, a client whose failures are recorded in turn gets
      through, since its last success, at most maxFailures failures, and maxFailures more for each
      Period between its first failure and its last. */
  lemma FailuresBounded(c: Cfg, ops: seq<Op>, key: string, t0: int)
    requires CfgOk(c) && Monotone(ops, t0) && OneAtATime(c, ops, key, true)
    requires FailTimes(ops, key) != []
    ensures Within(FailTimes(ops, key), Period(c), c.maxFailures)
  {
    var rounds := RunHasRounds(c, ops, key, t0);
    RoundsBound(c, After(c, ops, true), key, Clock(ops, t0), FailTimes(ops, key), rounds, c.maxFailures, 0);
  }

  // ------------------------------------------------------------- who is refused

  /** The record counts the last failures: those of its window, which opened with the first of them and
      took in the others; once they are maxFailures the lockout runs from the last. */
  ghost predicate Traced(c: Cfg, m: Clients, key: string, times: seq<int>) {
    && (forall i, j :: 0 <= i < j < |times| ==> times[i] <= times[j])
    && (key in m ==>
          var (r, n) := (m[key], |times|);
          && 0 < r.failures <= n && r.first == times[n - r.failures] && times[n - 1] <= r.first + c.window
          && r.until == if r.failures >= c.maxFailures then Some(times[n - 1] + c.lockout) else None)
  }

  lemma FailTraced(c: Cfg, m: Clients, key: string, times: seq<int>, now: int)
    requires CfgOk(c) && Traced(c, m, key, times) && (times != [] ==> times[|times| - 1] <= now)
    ensures Traced(c, Failed(c, m, key, now), key, times + [now])
  {
  }

  lemma OtherTraced(c: Cfg, m: Clients, op: Op, key: string, times: seq<int>)
    requires Traced(c, m, key, times) && !IsFail(op, key) && op != Success(key)
    ensures Traced(c, Step(c, m, op, true), key, times)
  {
  }

  lemma {:induction false} RunTraced(c: Cfg, ops: seq<Op>, key: string, t0: int)
    requires CfgOk(c) && Monotone(ops, t0)
    ensures Traced(c, After(c, ops, true), key, FailTimes(ops, key))
    ensures FailTimes(ops, key) != [] ==> FailTimes(ops, key)[|FailTimes(ops, key)| - 1] <= Clock(ops, t0)
  {
    if ops != [] {
      var n := |ops| - 1;
      var m, times := After(c, ops[..n], true), FailTimes(ops[..n], key);
      RunTraced(c, ops[..n], key, t0);
      if IsFail(ops[n], key) {
        FailTraced(c, m, key, times, ops[n].now);
        hide Traced, Failed;
      } else if ops[n] != Success(key) {
        OtherTraced(c, m, ops[n], key, times);
        hide Traced, Step;
        assert times + [] == times;
      }
    }
  }

  /** A client is refused only for its last maxFailures failures, all within one window and since its
      last success, and only until a lockout after the last; and it is told just how long. */
  lemma RefusedOnlyIf(c: Cfg, ops: seq<Op>, key: string, now: int, t0: int)
    requires CfgOk(c) && Monotone(ops, t0)
    requires !AnswerTo(c, After(c, ops, true), Allow(key, now), true).ok
    ensures var (times, n) := (FailTimes(ops, key), |FailTimes(ops, key)|);
      && n >= c.maxFailures && times[n - 1] - times[n - c.maxFailures] <= c.window
      && now < times[n - 1] + c.lockout
      && AnswerTo(c, After(c, ops, true), Allow(key, now), true).retryAfter == times[n - 1] + c.lockout - now
  {
    RunTraced(c, ops, key, t0);
    hide FailTimes, After, Monotone;
    var times, r := FailTimes(ops, key), After(c, ops, true)[key];
    assert times[|times| - r.failures] <= times[|times| - c.maxFailures];
  }

  /** Calls that record failures of key, none more than a window after the first. */
  predicate InOneWindow(c: Cfg, ops: seq<Op>, key: string) {
    && Success(key) !in ops
    && forall i, j :: 0 <= i < j < |ops| && IsFail(ops[i], key) && !ops[j].Success? ==>
         ops[j].now <= ops[i].now + c.window
  }

  /** The record has counted just these failures, and they do not lock the client out. */
  predicate HasCounted(m: Clients, key: string, times: seq<int>) {
    if times == [] then key !in m else key in m && m[key] == Record(|times|, times[0], None)
  }

  lemma OneMoreCounted(c: Cfg, m: Clients, op: Op, key: string, times: seq<int>)
    requires HasCounted(m, key, times) && op != Success(key)
    requires times != [] && !op.Success? ==> op.now <= times[0] + c.window
    ensures var more := times + if IsFail(op, key) then [op.now] else [];
      |more| < c.maxFailures ==> HasCounted(Step(c, m, op, true), key, more)
  {
  }

  lemma {:induction false} FailuresAreOps(ops: seq<Op>, key: string)
    ensures forall t :: t in FailTimes(ops, key) ==> exists i :: 0 <= i < |ops| && ops[i] == Fail(key, t)
  {
    if ops != [] {
      var n := |ops| - 1;
      FailuresAreOps(ops[..n], key);
      forall t | t in FailTimes(ops, key) ensures exists i :: 0 <= i < |ops| && ops[i] == Fail(key, t) {
        if t in FailTimes(ops[..n], key) {
          var i :| 0 <= i < n && ops[..n][i] == Fail(key, t);
          assert ops[i] == Fail(key, t);
        } else {
          assert ops[n] == Fail(key, t);
        }
      }
    }
  }

  lemma SoonEnough(c: Cfg, ops: seq<Op>, key: string)
    requires ops != [] && InOneWindow(c, ops, key)
    ensures InOneWindow(c, ops[..|ops| - 1], key)
    ensures var (times, op) := (FailTimes(ops[..|ops| - 1], key), ops[|ops| - 1]);
      op != Success(key) && (times != [] && !op.Success? ==> op.now <= times[0] + c.window)
  {
    var init := ops[..|ops| - 1];
    assert forall i :: 0 <= i < |init| ==> init[i] == ops[i];
    FailuresAreOps(init, key);
    var times := FailTimes(init, key);
    assert times != [] ==> times[0] in times;
  }

  lemma {:induction false} WindowCounts(c: Cfg, before: seq<Op>, ops: seq<Op>, key: string)
    requires CfgOk(c) && key !in After(c, before, true) && InOneWindow(c, ops, key)
    requires |FailTimes(ops, key)| < c.maxFailures
    ensures HasCounted(After(c, before + ops, true), key, FailTimes(ops, key))
  {
    if ops == [] {
      assert before + ops == before;
    } else {
      var n := |ops| - 1;
      assert before + ops == (before + ops[..n]) + [ops[n]];
      SoonEnough(c, ops, key);
      var times := FailTimes(ops[..n], key);
      assert FailTimes(ops, key) == times + if IsFail(ops[n], key) then [ops[n].now] else [];
      hide InOneWindow, FailTimes, HasCounted, Step, IsFail;
      WindowCounts(c, before, ops[..n], key);
      OneMoreCounted(c, After(c, before + ops[..n], true), ops[n], key, times);
      AppendOp(c, before + ops[..n], ops[n], true, key, 0);
    }
  }

  /** And conversely: a client without a record that fails maxFailures times within a window, whatever
      other clients do meanwhile, is refused exactly until a lockout after the last of them. */
  lemma LockedOutUntil(c: Cfg, before: seq<Op>, ops: seq<Op>, key: string, last: int, now: int)
    requires CfgOk(c) && key !in After(c, before, true) && now >= last
    requires InOneWindow(c, ops + [Fail(key, last)], key) && |FailTimes(ops, key)| == c.maxFailures - 1
    ensures AnswerTo(c, After(c, before + ops + [Fail(key, last)], true), Allow(key, now), true)
              == if now < last + c.lockout then Answer(false, last + c.lockout - now) else Answer(true, 0)
  {
    assert (ops + [Fail(key, last)])[..|ops|] == ops;
    SoonEnough(c, ops + [Fail(key, last)], key);
    WindowCounts(c, before, ops, key);
    AppendOp(c, before + ops, Fail(key, last), true, key, 0);
    hide FailTimes, InOneWindow, After;
  }

  // ------------------------------------------------------------- several attempts at a time

  /** Attempts admitted and not settled yet. */
  function InFlight(c: Cfg, ops: seq<Op>, key: string): int {
    if ops == [] then 0 else
      var n := |ops| - 1;
      var op := ops[n];
      InFlight(c, ops[..n], key) +
        if op.key != key then 0
        else if !op.Allow? then -1
        else if AnswerTo(c, After(c, ops[..n], true), op, true).ok then 1
        else 0
  }

  /** Every failure or success of the client settles an attempt of its, and it never has more than
      width attempts under way. */
  predicate AtMost(c: Cfg, ops: seq<Op>, key: string, width: nat) {
    ops == [] || (AtMost(c, ops[..|ops| - 1], key, width) && 0 <= InFlight(c, ops, key) <= width)
  }

  lemma {:induction false} WideRunHasRounds(c: Cfg, ops: seq<Op>, key: string, t0: int, width: nat)
    returns (rounds: nat)
    requires CfgOk(c) && Monotone(ops, t0) && AtMost(c, ops, key, width) && width > 0
    ensures InFlight(c, ops, key) >= 0
    ensures Rounds(c, After(c, ops, true), key, Clock(ops, t0), FailTimes(ops, key), rounds,
                   c.maxFailures + width - 1, InFlight(c, ops, key))
    decreases |ops|
  {
    if ops == [] || ops[|ops| - 1] == Success(key) {
      return 0;
    }
    var n := |ops| - 1;
    var init, op := ops[..n], ops[n];
    rounds := WideRunHasRounds(c, init, key, t0, width);
    var m, times, cap := After(c, init, true), FailTimes(init, key), c.maxFailures + width - 1;
    var due, due' := InFlight(c, init, key), InFlight(c, ops, key);
    if op.Allow? {
      rounds := AllowKeepsRounds(c, m, op, key, Clock(init, t0), times, rounds, cap, due, due');
    } else if IsFail(op, key) {
      assert due <= width by { AtMostNow(c, init, key, width); }
      rounds := FailKeepsRounds(c, m, key, op.now, Clock(init, t0), times, rounds, cap, due, due');
    }
  }

  lemma AtMostNow(c: Cfg, ops: seq<Op>, key: string, width: nat)
    requires AtMost(c, ops, key, width)
    ensures 0 <= InFlight(c, ops, key) <= width
  {
  }

  /** With at most width attempts under way the bound is that of maxFailures + width - 1. */
  lemma WideFailuresBounded(c: Cfg, ops: seq<Op>, key: string, t0: int, width: nat)
    requires CfgOk(c) && Monotone(ops, t0) && AtMost(c, ops, key, width) && width > 0
    requires FailTimes(ops, key) != []
    ensures Within(FailTimes(ops, key), Period(c), c.maxFailures + width - 1)
  {
    var rounds := WideRunHasRounds(c, ops, key, t0, width);
    RoundsBound(c, After(c, ops, true), key, Clock(ops, t0), FailTimes(ops, key), rounds,
                c.maxFailures + width - 1, InFlight(c, ops, key));
  }

  function Attempts(key: string, n: nat, now: int): seq<Op> {
    seq(n, _ => Allow(key, now))
  }

  function Failures(key: string, n: nat, now: int): seq<Op> {
    seq(n, _ => Fail(key, now))
  }

  /** n times a failure that leaves room for one more attempt, which is made at once. */
  function Retries(key: string, n: nat, now: int): seq<Op> {
    if n == 0 then [] else Retries(key, n - 1, now) + [Fail(key, now), Allow(key, now)]
  }

  lemma {:induction false} UnsettledAttemptsAllAdmitted(c: Cfg, key: string, n: nat, now: int)
    ensures var ops := Attempts(key, n, now);
            After(c, ops, true) == map[] && Answers(c, ops, key, true) == seq(n, _ => Answer(true, 0))
    ensures Monotone(Attempts(key, n, now), now) && Clock(Attempts(key, n, now), now) == now
    ensures FailTimes(Attempts(key, n, now), key) == []
  {
    if n > 0 {
      assert Attempts(key, n, now)[..n - 1] == Attempts(key, n - 1, now);
      UnsettledAttemptsAllAdmitted(c, key, n - 1, now);
    } else {
      assert Attempts(key, 0, now) == [];
    }
  }

  /** All at one time, with never more than width attempts of the client under way, failed failures
      are recorded and under attempts not settled. */
  ghost predicate Loaded(c: Cfg, ops: seq<Op>, key: string, now: int, width: nat, failed: nat, under: nat) {
    && Monotone(ops, now) && Clock(ops, now) == now
    && AtMost(c, ops, key, width) && InFlight(c, ops, key) == under
    && |FailTimes(ops, key)| == failed && forall t :: t in FailTimes(ops, key) ==> t == now
  }

  /** The table with that many failures of the client and nothing else. */
  function Counted(key: string, failed: nat, now: int): Clients {
    if failed == 0 then map[] else map[key := Record(failed, now, None)]
  }

  lemma OneAllowed(c: Cfg, ops: seq<Op>, key: string, now: int, width: nat, failed: nat, under: nat)
    requires CfgOk(c) && Loaded(c, ops, key, now, width, failed, under) && under < width
    requires After(c, ops, true) == Counted(key, failed, now)
    ensures Loaded(c, ops + [Allow(key, now)], key, now, width, failed, under + 1)
    ensures After(c, ops + [Allow(key, now)], true) == Counted(key, failed, now)
  {
    assert (ops + [Allow(key, now)])[..|ops|] == ops;
  }

  lemma OneFailed(c: Cfg, ops: seq<Op>, key: string, now: int, width: nat, failed: nat, under: nat)
    requires CfgOk(c) && Loaded(c, ops, key, now, width, failed, under) && under > 0
    ensures Loaded(c, ops + [Fail(key, now)], key, now, width, failed + 1, under - 1)
    ensures After(c, ops, true) == Counted(key, failed, now) && failed + 1 < c.maxFailures ==>
              After(c, ops + [Fail(key, now)], true) == Counted(key, failed + 1, now)
  {
    assert (ops + [Fail(key, now)])[..|ops|] == ops;
  }

  lemma {:induction false} AttemptsLoad(c: Cfg, key: string, n: nat, now: int, width: nat)
    requires CfgOk(c) && n <= width
    ensures Loaded(c, Attempts(key, n, now), key, now, width, 0, n)
    ensures After(c, Attempts(key, n, now), true) == map[]
  {
    if n > 0 {
      AttemptsLoad(c, key, n - 1, now, width);
      assert Attempts(key, n, now) == Attempts(key, n - 1, now) + [Allow(key, now)];
      OneAllowed(c, Attempts(key, n - 1, now), key, now, width, 0, n - 1);
    } else {
      assert Attempts(key, 0, now) == [];
    }
  }

  lemma {:induction false} RetriesLoad(c: Cfg, key: string, n: nat, now: int, width: nat)
    requires CfgOk(c) && width > 0 && n < c.maxFailures
    ensures var ops := Attempts(key, width, now) + Retries(key, n, now);
      Loaded(c, ops, key, now, width, n, width) && After(c, ops, true) == Counted(key, n, now)
  {
    var ops := Attempts(key, width, now);
    if n > 0 {
      RetriesLoad(c, key, n - 1, now, width);
      var most := ops + Retries(key, n - 1, now);
      assert ops + Retries(key, n, now) == most + [Fail(key, now)] + [Allow(key, now)];
      OneFailed(c, most, key, now, width, n - 1, width);
      OneAllowed(c, most + [Fail(key, now)], key, now, width, n, width - 1);
    } else {
      AttemptsLoad(c, key, width, now, width);
      assert ops + Retries(key, 0, now) == ops;
    }
  }

  lemma {:induction false} FailuresLoad(
    c: Cfg, ops: seq<Op>, key: string, n: nat, now: int, width: nat, failed: nat, under: nat)
    requires CfgOk(c) && Loaded(c, ops, key, now, width, failed, under) && n <= under
    ensures Loaded(c, ops + Failures(key, n, now), key, now, width, failed + n, under - n)
  {
    if n > 0 {
      FailuresLoad(c, ops, key, n - 1, now, width, failed, under);
      var most := ops + Failures(key, n - 1, now);
      assert ops + Failures(key, n, now) == most + [Fail(key, now)];
      OneFailed(c, most, key, now, width, failed + (n - 1), under - (n - 1));
    } else {
      assert ops + Failures(key, 0, now) == ops;
    }
  }

  /** width attempts, all but one of the failures allowed, each followed by another attempt, and
      then the failures of the width attempts that are under way. */
  function Worst(c: Cfg, key: string, width: nat, now: int): seq<Op>
    requires CfgOk(c)
  {
    Attempts(key, width, now) + Retries(key, c.maxFailures - 1, now) + Failures(key, width, now)
  }

  /** The bound is met: with width attempts under way maxFailures + width - 1 failures can be
      recorded at one and the same time. */
  lemma WideBoundIsMet(c: Cfg, key: string, width: nat, now: int)
    requires CfgOk(c) && width > 0
    ensures var (ops, times) := (Worst(c, key, width, now), FailTimes(Worst(c, key, width, now), key));
      && Monotone(ops, now) && AtMost(c, ops, key, width)
      && |times| == c.maxFailures + width - 1 && forall t :: t in times ==> t == now
  {
    RetriesLoad(c, key, c.maxFailures - 1, now, width);
    FailuresLoad(c, Attempts(key, width, now) + Retries(key, c.maxFailures - 1, now), key, width, now, width,
                 c.maxFailures - 1, width);
    hide AtMost, InFlight, Monotone, Clock, FailTimes, Attempts, Retries, Failures;
  }

  /** In every run in which key has at most width attempts under way, its failures since its last
      success are at most cap, and cap more for each Period. */
  ghost predicate Caps(c: Cfg, key: string, width: nat, cap: int) {
    forall ops, t0 :: Monotone(ops, t0) && AtMost(c, ops, key, width) && FailTimes(ops, key) != [] ==>
      Within(FailTimes(ops, key), Period(c), cap)
  }

  lemma AtOnceWithin(times: seq<int>, period: int, cap: int, now: int)
    requires times != [] && period > 0 && forall t :: t in times ==> t == now
    ensures Within(times, period, cap) <==> |times| <= cap
  {
    assert times[0] in times && times[|times| - 1] in times;
    if |times| > cap {
      assert (|times| - cap) * period > 0;
    }
  }

  lemma MoreCaps(times: seq<int>, period: int, cap: int, more: int)
    requires times != [] && period > 0 && times[0] <= times[|times| - 1] && cap <= more
    ensures Within(times, period, cap) ==> Within(times, period, more)
  {
    var span := period + times[|times| - 1] - times[0];
    assert (more - cap) * span >= 0;
  }

  lemma {:induction false} TimesInOrder(ops: seq<Op>, key: string, t0: int)
    requires Monotone(ops, t0) && FailTimes(ops, key) != []
    ensures var times := FailTimes(ops, key); times[0] <= times[|times| - 1] <= Clock(ops, t0)
  {
    var n := |ops| - 1;
    if FailTimes(ops[..n], key) != [] {
      TimesInOrder(ops[..n], key, t0);
    }
  }

  /** With at most width attempts under way, maxFailures + width - 1 is the least bound there is; so
      maxFailures itself is one exactly when attempts are made one at a time. */
  lemma CapsIff(c: Cfg, key: string, width: nat, cap: int)
    requires CfgOk(c) && width > 0
    ensures Caps(c, key, width, cap) <==> cap >= c.maxFailures + width - 1
    ensures Caps(c, key, width, c.maxFailures) <==> width == 1
  {
    CapsEnough(c, key, width, cap);
    CapsEnough(c, key, width, c.maxFailures);
    CapsNeeded(c, key, width, cap);
    CapsNeeded(c, key, width, c.maxFailures);
    hide Caps;
  }

  lemma CapsEnough(c: Cfg, key: string, width: nat, cap: int)
    requires CfgOk(c) && width > 0
    ensures cap >= c.maxFailures + width - 1 ==> Caps(c, key, width, cap)
  {
    if cap >= c.maxFailures + width - 1 {
      forall ops, t0 | Monotone(ops, t0) && AtMost(c, ops, key, width) && FailTimes(ops, key) != []
        ensures Within(FailTimes(ops, key), Period(c), cap)
      {
        hide Monotone, AtMost, FailTimes, Clock;
        WideFailuresBounded(c, ops, key, t0, width);
        TimesInOrder(ops, key, t0);
        MoreCaps(FailTimes(ops, key), Period(c), c.maxFailures + width - 1, cap);
      }
    }
  }

  lemma CapsNeeded(c: Cfg, key: string, width: nat, cap: int)
    requires CfgOk(c) && width > 0
    ensures Caps(c, key, width, cap) ==> cap >= c.maxFailures + width - 1
  {
    var ops := Worst(c, key, width, 0);
    WideBoundIsMet(c, key, width, 0);
    hide Monotone, AtMost, FailTimes, Worst, Within;
    AtOnceWithin(FailTimes(ops, key), Period(c), cap, 0);
  }

  /** Without a limit on the attempts under way there is no bound: any number of attempts are
      admitted before the first failure is recorded, and then they all fail at once. */
  lemma UnsettledAttemptsBreakTheBound(c: Cfg, key: string, n: nat, now: int)
    requires CfgOk(c) && n > c.maxFailures
    ensures var ops := Attempts(key, n, now) + Failures(key, n, now);
      var times := FailTimes(ops, key);
      && Monotone(ops, now) && AtMost(c, ops, key, n)
      && Answers(c, Attempts(key, n, now), key, true) == seq(n, _ => Answer(true, 0))
      && |times| == n && !Within(times, Period(c), c.maxFailures)
  {
    UnsettledAttemptsAllAdmitted(c, key, n, now);
    AttemptsLoad(c, key, n, now, n);
    FailuresLoad(c, Attempts(key, n, now), key, n, now, n, 0, n);
    hide AtMost, InFlight, Monotone, Clock, FailTimes, Attempts, Failures;
    AtOnceWithin(FailTimes(Attempts(key, n, now) + Failures(key, n, now), key), Period(c), c.maxFailures, now);
  }

  // ------------------------------------------------------------- the object

  lemma NonEmpty(s: set<string>)
    requires |s| > 0
    ensures exists x :: x in s
  {
    if forall x :: x !in s { NoStrings(s); }
  }

  lemma NoStrings(s: set<string>)
    requires forall x :: x !in s
    ensures |s| == 0
  {
  }

  class AuthLimiter {
    const cfg: Cfg
    var clients: Clients

    constructor (maxFailures: int, window: int, lockout: int)
      ensures CfgOk(cfg) && clients == map[]
      ensures cfg.maxFailures == if maxFailures > 0 then maxFailures else 5
      ensures cfg.window == if window > 0 then window else 300_000_000_000
      ensures cfg.lockout == if lockout > 0 then lockout else 300_000_000_000
    {
      var minutes := 60 * 1000000000;
      cfg := Cfg(if maxFailures <= 0 then 5 else maxFailures,
                 if window <= 0 then 5 * minutes else window,
                 if lockout <= 0 then 5 * minutes else lockout);
      clients := map[];
    }

    method PruneLocked(now: int)
      modifies this
      ensures clients == Pruned(cfg, old(clients), now)
      ensures forall k :: k in clients ==> k in old(clients) && clients[k] == old(clients)[k]
      ensures forall k :: k in old(clients) && old(clients)[k].until.None? ==>
                (k in clients <==> now <= old(clients)[k].first + cfg.window)
      ensures forall k :: k in old(clients) && old(clients)[k].until.Some? ==>
                (k in clients <==> now <= old(clients)[k].until.value)
    {
      var todo := clients.Keys;
      while |todo| > 0
        invariant todo <= old(clients).Keys
        invariant clients ==
          map k | k in old(clients) && (k in todo || !Dead(cfg, old(clients)[k], now)) :: old(clients)[k]
        decreases |todo|
      {
        NonEmpty(todo);
        var k :| k in todo;
        var rec := clients[k];
        var expired := rec.until.None? && now - rec.first > cfg.window;
        var served := rec.until.Some? && now > rec.until.value;
        if expired || served {
          clients := clients - {k};
        }
        todo := todo - {k};
      }
      assert forall k :: k in old(clients) ==> k !in todo;
    }

    method Allow(key: string, now: int) returns (ok: bool, retryAfter: int)
      modifies this
      ensures var op := Op.Allow(key, now);
              clients == Step(cfg, old(clients), op, true)
              && Answer(ok, retryAfter) == AnswerTo(cfg, old(clients), op, true)
    {
      PruneLocked(now);
      if key !in clients {
        return true, 0;
      }
      var rec := clients[key];
      if rec.until.Some? {
        if now < rec.until.value {
          return false, rec.until.value - now;
        }
        clients := clients - {key};
      }
      return true, 0;
    }

    method RecordFailure(key: string, now: int)
      modifies this
      ensures clients == Step(cfg, old(clients), Fail(key, now), true)
    {
      var rec := Record(0, now, None);
      if key in clients && now - clients[key].first <= cfg.window {
        rec := clients[key];
      }
      rec := rec.(failures := rec.failures + 1);
      if rec.failures >= cfg.maxFailures {
        rec := rec.(until := Some(now + cfg.lockout));
      }
      clients := clients[key := rec];
    }

    method RecordSuccess(key: string)
      modifies this
      ensures clients == Step(cfg, old(clients), Success(key), true)
    {
      clients := clients - {key};
    }
  }
}
