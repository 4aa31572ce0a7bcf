/** The last-seen mark of a session (internal/proxy/api/server.go): reports that race each other
    with a load and a compare-and-swap. */
module LastSeen {

  /** Where a call of advanceLastSeen is: about to load, about to swap with what it loaded, or
      done. at is how many swaps had succeeded when it loaded, a history. */
  datatype Phase = Loading | Swapping(seen: int, at: nat) | Returned

  datatype Report = Report(id: int, phase: Phase, retries: nat)

  /** won, a history, holds the reports whose swap succeeded. */
  datatype State = State(mark: int, reports: seq<Report>, won: seq<nat>)

  const INITIAL := State(0, [], [])

  datatype Event =
    | Begin(id: int)
    | Load(r: nat)      // and the test that the report is news
    | Swap(r: nat)

  predicate Enabled(s: State, e: Event) {
    match e
    case Begin(_) => true
    case Load(r) => r < |s.reports| && s.reports[r].phase == Loading
    case Swap(r) => r < |s.reports| && s.reports[r].phase.Swapping?
  }

  function To(s: State, r: nat, phase: Phase): State
    requires r < |s.reports|
  {
    s.(reports := s.reports[r := s.reports[r].(phase := phase)])
  }

  function Step(s: State, e: Event): State
    requires Enabled(s, e)
  {
    match e
    case Begin(id) => s.(reports := s.reports + [Report(id, Loading, 0)])
    case Load(r) =>
      To(s, r, if s.reports[r].id <= s.mark then Returned else Swapping(s.mark, |s.won|))
    case Swap(r) =>
      if s.mark == s.reports[r].phase.seen then
        To(s, r, Returned).(mark := s.reports[r].id, won := s.won + [r])
      else
        s.(reports := s.reports[r := s.reports[r].(phase := Loading, retries := s.reports[r].retries + 1)])
  }

  /** What a report has seen of the mark. */
  predicate ReportOk(s: State, r: nat)
    requires r < |s.reports|
  {
    var p := s.reports[r];
    match p.phase
    case Loading => p.retries <= |s.won|
    case Swapping(seen, at) =>
      seen < p.id && seen <= s.mark && p.retries <= at <= |s.won| && (seen == s.mark <==> at == |s.won|)
    case Returned => p.id <= s.mark && p.retries <= |s.won|
  }

  ghost predicate Inv(s: State) {
    && (forall r :: 0 <= r < |s.reports| ==> ReportOk(s, r))
    && (forall k :: 0 <= k < |s.won| ==> s.won[k] < |s.reports| && s.reports[s.won[k]].phase == Returned)
    && (forall j, k :: 0 <= j < k < |s.won| ==> s.won[j] != s.won[k])
    && s.mark == (if s.won == [] then 0 else s.reports[s.won[|s.won| - 1]].id)
    && 0 <= s.mark
  }

  lemma StepKeepsInv(s: State, e: Event)
    requires Inv(s) && Enabled(s, e)
    ensures Inv(Step(s, e)) && s.mark <= Step(s, e).mark
  {
    var t := Step(s, e);
    if !e.Begin? {
      assert ReportOk(s, e.r);
    }
    forall r | 0 <= r < |t.reports| ensures ReportOk(t, r) {
      if r < |s.reports| {
        assert ReportOk(s, r);
      }
    }
  }

  /** advanceLastSeen done in one go. */
  function Advanced(mark: int, id: int): int {
    if id <= mark then mark else id
  }

  /** A call takes effect in the one step it returns in, and then as if nobody else were there; a step
      that no call returns in leaves the mark. */
  lemma ReturnTakesEffect(s: State, e: Event)
    requires Inv(s) && Enabled(s, e)
    ensures var t := Step(s, e);
      if !e.Begin? && t.reports[e.r].phase == Returned then t.mark == Advanced(s.mark, s.reports[e.r].id)
      else t.mark == s.mark
  {
    if !e.Begin? {
      assert ReportOk(s, e.r);
    }
  }

  ghost predicate Next(s: State, t: State) {
    exists e :: Enabled(s, e) && t == Step(s, e)
  }

  /** Any interleaving of any number of reports, on a new session. */
  ghost predicate Run(trace: seq<State>) {
    && trace != [] && trace[0] == INITIAL
    && forall i :: 0 <= i < |trace| - 1 ==> Next(trace[i], trace[i + 1])
  }

  lemma {:induction false} RunKeepsInv(trace: seq<State>, i: nat)
    requires Run(trace) && i < |trace|
    ensures Inv(trace[i])
  {
    if i > 0 {
      RunKeepsInv(trace, i - 1);
      assert Next(trace[i - 1], trace[i - 1 + 1]);
      var e :| Enabled(trace[i - 1], e) && trace[i] == Step(trace[i - 1], e);
      StepKeepsInv(trace[i - 1], e);
    }
  }

  /** The mark never falls. */
  lemma {:induction false} MarkNeverFalls(trace: seq<State>, i: nat, k: nat)
    requires Run(trace) && i <= k < |trace|
    ensures trace[i].mark <= trace[k].mark
  {
    if i < k {
      MarkNeverFalls(trace, i, k - 1);
      RunKeepsInv(trace, k - 1);
      assert Next(trace[k - 1], trace[k - 1 + 1]);
      var e :| Enabled(trace[k - 1], e) && trace[k] == Step(trace[k - 1], e);
      StepKeepsInv(trace[k - 1], e);
    }
  }

  /** The mark is at least every report that has returned, and it is 0 or one of the reports. So once
      all have returned it is the largest of them, however they were interleaved. */
  lemma MarkIsLargest(trace: seq<State>, i: nat)
    requires Run(trace) && i < |trace|
    ensures var s := trace[i];
      && (forall r :: 0 <= r < |s.reports| && s.reports[r].phase == Returned ==> s.reports[r].id <= s.mark)
      && (s.mark == 0 ||
          exists r :: 0 <= r < |s.reports| && s.reports[r].phase == Returned && s.reports[r].id == s.mark)
  {
    RunKeepsInv(trace, i);
    var s := trace[i];
    forall r | 0 <= r < |s.reports| && s.reports[r].phase == Returned ensures s.reports[r].id <= s.mark {
      assert ReportOk(s, r);
    }
  }

  /** A report goes round again only when another one got its swap in: it has retried at most once
      for each report that won, which are different ones that have returned. So no report goes round
      for ever unless others keep arriving. */
  lemma RetriesArePaid(trace: seq<State>, i: nat, r: nat)
    requires Run(trace) && i < |trace| && r < |trace[i].reports|
    ensures var s := trace[i];
      && s.reports[r].retries <= |s.won|
      && (forall k :: 0 <= k < |s.won| ==> s.won[k] < |s.reports| && s.reports[s.won[k]].phase == Returned)
      && (forall j, k :: 0 <= j < k < |s.won| ==> s.won[j] != s.won[k])
  {
    RunKeepsInv(trace, i);
    assert ReportOk(trace[i], r);
  }
}
