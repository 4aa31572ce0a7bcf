/** Scheduled commands and their timers (internal/proxy/commands/cron.go). */
module Cron {
  // A timer that has expired has a callback of its own that has yet to take the lock; until it
  // does, the job can be cancelled under it.

  import opened Text
  import Sets

  datatype Job = Job(command: string, intervalText: string, interval: nat, repeat: bool, nextRun: int, timer: nat)

  datatype Phase = Armed | Pending | Over

  /** A timer of the runtime: which job it is for and when it is due. */
  datatype Timer = Timer(id: int, due: int, phase: Phase)

  /** What a job was when it was scheduled, and when. */
  datatype Birth = Birth(at: int, command: string, intervalText: string, interval: nat, repeat: bool)

  /** The table and its timers; born, runs and gone record the history: job id was scheduled as
      born[id], its runs were committed at the times runs[id], and it was cancelled if in gone. */
  datatype Table = Table(
    now: int, next: nat, jobs: map<int, Job>, timers: seq<Timer>,
    born: seq<Birth>, runs: seq<seq<int>>, gone: set<int>)

  const EMPTY := Table(0, 0, map[], [], [], [], {})

  // ------------------------------------------------------------- steps of the table

  /** schedule; the timer is armed lag after the clock was first read. */
  function Schedule(t: Table, b: Birth, lag: nat): Table {
    t.(now := t.now + lag, next := t.next + 1,
       jobs := t.jobs[t.next := Job(b.command, b.intervalText, b.interval, b.repeat, t.now + b.interval, |t.timers|)],
       timers := t.timers + [Timer(t.next, t.now + lag + b.interval, Armed)],
       born := t.born + [b.(at := t.now)], runs := t.runs + [[]])
  }

  function SetPhase(t: Table, i: nat, p: Phase): Table
    requires i < |t.timers|
  {
    t.(timers := t.timers[i := t.timers[i].(phase := p)])
  }

  /** The locked part of run: a repeating job is armed again, a one-shot job leaves the table, and
      an id that is no longer there means nothing to do. */
  function Commit(t: Table, id: int, lag: nat): Table {
    if id !in t.jobs || !(0 <= id < |t.runs|) then t
    else
      var job := t.jobs[id];
      var u := t.(now := t.now + lag, runs := t.runs[id := t.runs[id] + [t.now]]);
      if job.repeat then
        u.(jobs := t.jobs[id := job.(nextRun := t.now + job.interval, timer := |t.timers|)],
           timers := t.timers + [Timer(id, t.now + lag + job.interval, Armed)])
      else u.(jobs := t.jobs - {id})
  }

  function StopTimer(t: Table, i: nat): Table {
    if i < |t.timers| && t.timers[i].phase == Armed then SetPhase(t, i, Over) else t
  }

  /** cancel of one id: an expired timer's callback cannot be called back. */
  function Cancel(t: Table, id: int): Table {
    if id !in t.jobs then t
    else StopTimer(t, t.jobs[id].timer).(jobs := t.jobs - {id}, gone := t.gone + {id})
  }

  // ------------------------------------------------------------- the invariant

  /** A live job's timer is its own and still to come. */
  ghost predicate JobsOk(t: Table) {
    && |t.born| == |t.runs| == t.next
    && forall id :: id in t.jobs ==>
      && 0 <= id < t.next && id !in t.gone
      && var j := t.jobs[id];
        && j.timer < |t.timers| && t.timers[j.timer].id == id && t.timers[j.timer].phase != Over
        && j == Job(t.born[id].command, t.born[id].intervalText, t.born[id].interval, t.born[id].repeat,
                    j.nextRun, j.timer)
  }

  /** A live job has no second timer, and nothing is armed without a job. */
  ghost predicate TimersOk(t: Table) {
    forall i :: 0 <= i < |t.timers| ==>
      && 0 <= t.timers[i].id < t.next
      && (t.timers[i].phase != Over && t.timers[i].id in t.jobs ==> t.jobs[t.timers[i].id].timer == i)
      && (t.timers[i].phase == Armed ==> t.timers[i].id in t.jobs)
  }

  /** A job leaves the table by being cancelled or, if it does not repeat, by running once. */
  ghost predicate FateOk(t: Table) {
    && |t.born| == |t.runs| == t.next
    && (forall id :: id in t.gone ==> 0 <= id < t.next)
    && forall id :: 0 <= id < t.next ==>
      && (id in t.jobs && !t.born[id].repeat ==> t.runs[id] == [])
      && (id !in t.jobs ==> id in t.gone || (!t.born[id].repeat && |t.runs[id]| == 1))
      && (!t.born[id].repeat ==> |t.runs[id]| <= 1)
  }

  /** at plus k intervals. */
  function Later(at: int, interval: nat, k: nat): int {
    at + k * interval
  }

  lemma LaterStep(at: int, interval: nat, k: nat)
    ensures Later(at, interval, k + 1) == Later(at, interval, k) + interval
    ensures Later(at, interval, 0) == at
  {
  }

  /** Runs are no earlier than their turns. */
  ghost predicate TurnsOk(t: Table) {
    && |t.born| == |t.runs| == t.next
    && (forall id, k :: 0 <= id < t.next && 0 <= k < |t.runs[id]| ==>
          t.runs[id][k] >= Later(t.born[id].at, t.born[id].interval, k + 1))
    && forall id :: id in t.jobs && 0 <= id < t.next ==>
      && t.jobs[id].nextRun >= Later(t.born[id].at, t.born[id].interval, |t.runs[id]| + 1)
      && t.jobs[id].timer < |t.timers|
      && t.timers[t.jobs[id].timer].due >= t.jobs[id].nextRun
      && (t.timers[t.jobs[id].timer].phase == Pending ==> t.now >= t.timers[t.jobs[id].timer].due)
  }

  ghost predicate Inv(t: Table) {
    JobsOk(t) && TimersOk(t) && FateOk(t) && TurnsOk(t)
  }

  lemma ScheduleKeeps(t: Table, b: Birth, lag: nat)
    requires Inv(t)
    ensures Inv(Schedule(t, b, lag))
  {
    LaterStep(t.now, b.interval, 0);
    hide Later;
  }

  lemma ExpireKeeps(t: Table, i: nat)
    requires Inv(t) && i < |t.timers| && t.timers[i].phase == Armed && t.timers[i].due <= t.now
    ensures Inv(SetPhase(t, i, Pending))
  {
    hide Later;
  }

  lemma StopKeeps(t: Table, id: int)
    requires Inv(t)
    ensures Inv(Cancel(t, id))
  {
    hide Later;
  }

  /** A callback, first off the list of pending ones and then committed. */
  function Callback(t: Table, i: nat, lag: nat): Table
    requires i < |t.timers|
  {
    Commit(SetPhase(t, i, Over), t.timers[i].id, lag)
  }

  lemma CallbackKeeps(t: Table, i: nat, lag: nat)
    requires Inv(t) && i < |t.timers| && t.timers[i].phase == Pending
    ensures Inv(Callback(t, i, lag))
  {
    var id := t.timers[i].id;
    LaterStep(t.born[id].at, t.born[id].interval, |t.runs[id]| + 1);
    hide Later;
  }

  /** Cancelling a set of jobs at once. */
  function CancelSet(t: Table, ids: set<int>): Table {
    t.(timers := seq(|t.timers|, i requires 0 <= i < |t.timers| =>
         var m := t.timers[i];
         if m.phase == Armed && m.id in ids && m.id in t.jobs && t.jobs[m.id].timer == i then m.(phase := Over) else m),
       jobs := t.jobs - ids, gone := t.gone + (ids * t.jobs.Keys))
  }

  /** One job after another, in any order. */
  lemma CancelOneMore(t: Table, ids: set<int>, id: int)
    requires JobsOk(t) && id in t.jobs && id !in ids
    ensures Cancel(CancelSet(t, ids), id) == CancelSet(t, ids + {id})
  {
  }

  lemma CancelSetKeeps(t: Table, ids: set<int>)
    requires Inv(t)
    ensures Inv(CancelSet(t, ids))
  {
    hide Later;
  }

  // ------------------------------------------------------------- a run's commands

  /** What a run says and sends, outside the lock. */
  datatype Out = Announced(intervalText: string, command: string) | Fired(line: string)

  function FiredLines(parts: seq<string>): seq<Out> {
    if parts == [] then []
    else
      var sub := Trim(parts[|parts| - 1]);
      FiredLines(parts[..|parts| - 1]) + if sub == "" then [] else [Fired(sub)]
  }

  function Script(job: Job): seq<Out> {
    [Announced(job.intervalText, job.command)] + FiredLines(Split(job.command, '\n'))
  }

  // ------------------------------------------------------------- the whole program

  /** A committed run: the job's id, what it has to say and send, and how much of it is out. */
  datatype Dispatch = Dispatch(id: int, script: seq<Out>, done: nat)

  datatype System = System(t: Table, dispatches: seq<Dispatch>)

  datatype Step =
    | Add(b: Birth, lag: nat)
    | Wait(d: nat)
    | Expire(timer: nat)
    | Call(timer: nat, lag: nat)
    | Drop(id: int)
    | StopAll
    | Send(run: nat)

  predicate Enabled(s: System, a: Step) {
    match a
    case Expire(i) => i < |s.t.timers| && s.t.timers[i].phase == Armed && s.t.timers[i].due <= s.t.now
    case Call(i, _) => i < |s.t.timers| && s.t.timers[i].phase == Pending
    case Send(r) => r < |s.dispatches| && s.dispatches[r].done < |s.dispatches[r].script|
    case _ => true
  }

  function Next(s: System, a: Step): System
    requires Enabled(s, a)
  {
    match a
    case Add(b, lag) => s.(t := Schedule(s.t, b, lag))
    case Wait(d) => s.(t := s.t.(now := s.t.now + d))
    case Expire(i) => s.(t := SetPhase(s.t, i, Pending))
    case Call(i, lag) =>
      var id := s.t.timers[i].id;
      System(Callback(s.t, i, lag),
             s.dispatches + if id in s.t.jobs then [Dispatch(id, Script(s.t.jobs[id]), 0)] else [])
    case Drop(id) => s.(t := Cancel(s.t, id))
    case StopAll => s.(t := CancelSet(s.t, s.t.jobs.Keys))
    case Send(r) => s.(dispatches := s.dispatches[r := s.dispatches[r].(done := s.dispatches[r].done + 1)])
  }

  /** A run of the program from s on. */
  ghost predicate Onwards(ss: seq<System>, steps: seq<Step>, s: System) {
    && |ss| == |steps| + 1
    && ss[0] == s
    && forall k {:trigger steps[k]} :: 0 <= k < |steps| ==>
         Enabled(ss[k], steps[k]) && ss[k + 1] == Next(ss[k], steps[k])
  }

  ghost predicate Trace(ss: seq<System>, steps: seq<Step>) {
    Onwards(ss, steps, System(EMPTY, []))
  }

  lemma NextKeepsInv(s: System, a: Step)
    requires Inv(s.t) && Enabled(s, a)
    ensures Inv(Next(s, a).t)
  {
    match a
    case Add(b, lag) => ScheduleKeeps(s.t, b, lag);
    case Wait(_) =>
    case Expire(i) => ExpireKeeps(s.t, i);
    case Call(i, lag) => CallbackKeeps(s.t, i, lag);
    case Drop(id) => StopKeeps(s.t, id);
    case StopAll => CancelSetKeeps(s.t, s.t.jobs.Keys);
    case Send(_) =>
  }

  /** Over every run: a live job has exactly one timer armed or pending, a one-shot job runs at
      most once, no run comes before its turn, and no job is lost. */
  lemma {:induction false} RunKeepsInv(ss: seq<System>, steps: seq<Step>, k: nat)
    requires Trace(ss, steps) && k < |ss|
    ensures Inv(ss[k].t)
  {
    if k > 0 {
      RunKeepsInv(ss, steps, k - 1);
      assert Enabled(ss[k - 1], steps[k - 1]);
      NextKeepsInv(ss[k - 1], steps[k - 1]);
    }
  }

  lemma ExactlyOneTimer(t: Table, id: int)
    requires Inv(t) && id in t.jobs
    ensures var i := t.jobs[id].timer; i < |t.timers| && t.timers[i].id == id && t.timers[i].phase != Over
    ensures forall j :: 0 <= j < |t.timers| && t.timers[j].id == id && t.timers[j].phase != Over ==>
              j == t.jobs[id].timer
  {
    assert t.timers[t.jobs[id].timer].id == id;
  }

  /** The k-th run of a job, counting from 1, comes at least k intervals after scheduling. */
  lemma RunsKeepTheirTurn(t: Table, id: nat, k: nat)
    requires Inv(t) && id < t.next && 0 < k <= |t.runs[id]|
    ensures t.runs[id][k - 1] - t.born[id].at >= k * t.born[id].interval
    ensures !t.born[id].repeat ==> |t.runs[id]| == 1
  {
    assert t.runs[id][k - 1] >= Later(t.born[id].at, t.born[id].interval, k - 1 + 1);
  }

  /** The callback of a job that is gone changes nothing but its own timer. */
  lemma StaleCallback(s: System, i: nat, lag: nat)
    requires Enabled(s, Call(i, lag)) && s.t.timers[i].id !in s.t.jobs
    ensures Next(s, Call(i, lag)) == s.(t := SetPhase(s.t, i, Over))
  {
  }

  /** What one step cannot take back. */
  ghost predicate Follows(t: Table, u: Table) {
    && |t.born| == |t.runs| == t.next <= u.next == |u.runs| == |u.born|
    && t.born <= u.born
    && (forall id :: id in t.gone ==> id in u.gone)
    && (forall id :: 0 <= id < t.next ==> t.runs[id] <= u.runs[id])
    && (forall id :: 0 <= id < t.next && id !in t.jobs ==> id !in u.jobs && t.runs[id] == u.runs[id])
  }

  lemma ScheduleFollows(t: Table, b: Birth, lag: nat)
    requires Inv(t)
    ensures Follows(t, Schedule(t, b, lag))
  {
    hide Later;
  }

  lemma CallbackFollows(t: Table, i: nat, lag: nat)
    requires Inv(t) && i < |t.timers|
    ensures Follows(t, Callback(t, i, lag))
  {
    hide Later;
  }

  lemma CancelFollows(t: Table, id: int)
    requires Inv(t)
    ensures Follows(t, Cancel(t, id)) && Follows(t, CancelSet(t, t.jobs.Keys))
  {
    hide Later;
  }

  lemma StepFollows(s: System, a: Step)
    requires Inv(s.t) && Enabled(s, a)
    ensures Follows(s.t, Next(s, a).t)
  {
    match a
    case Add(b, lag) => ScheduleFollows(s.t, b, lag);
    case Call(i, lag) => CallbackFollows(s.t, i, lag);
    case Drop(id) => CancelFollows(s.t, id);
    case StopAll => CancelFollows(s.t, 0);
    case _ =>
  }

  lemma FollowsJoins(t: Table, u: Table, v: Table)
    requires Follows(t, u) && Follows(u, v)
    ensures Follows(t, v)
  {
  }

  /** A job that has left the table, by whatever way, never comes back and never runs again. */
  lemma {:induction false} GoneForGood(ss: seq<System>, steps: seq<Step>, i: nat, k: nat)
    requires Trace(ss, steps) && i <= k < |ss|
    ensures Follows(ss[i].t, ss[k].t)
  {
    if i < k {
      GoneForGood(ss, steps, i, k - 1);
      RunKeepsInv(ss, steps, k - 1);
      assert Enabled(ss[k - 1], steps[k - 1]);
      StepFollows(ss[k - 1], steps[k - 1]);
      FollowsJoins(ss[i].t, ss[k - 1].t, ss[k].t);
    } else {
      RunKeepsInv(ss, steps, k);
    }
  }

  /** A new job's id is one no job has had. */
  lemma FreshIds(ss: seq<System>, steps: seq<Step>, i: nat, k: nat)
    requires Trace(ss, steps) && i < k < |steps| && steps[i].Add? && steps[k].Add?
    ensures ss[i].t.next in ss[i + 1].t.jobs && ss[k].t.next in ss[k + 1].t.jobs
    ensures ss[i].t.next < ss[k].t.next
    ensures ss[k].t.next !in ss[k].t.jobs && ss[k].t.next !in ss[k].t.gone
  {
    assert Enabled(ss[i], steps[i]) && Enabled(ss[k], steps[k]);
    GoneForGood(ss, steps, i + 1, k);
    RunKeepsInv(ss, steps, k);
  }

  /** A cancelled job's runs are those committed before the cancel. */
  lemma CancelledNeverCommits(ss: seq<System>, steps: seq<Step>, i: nat, k: nat)
    requires Trace(ss, steps) && i < k < |ss| && steps[i].Drop? && steps[i].id in ss[i].t.jobs
    ensures var id := steps[i].id;
      0 <= id < |ss[i].t.runs| && id < |ss[k].t.runs| && ss[k].t.runs[id] == ss[i].t.runs[id] && id in ss[k].t.gone
  {
    RunKeepsInv(ss, steps, i);
    assert Enabled(ss[i], steps[i]);
    GoneForGood(ss, steps, i + 1, k);
  }

  /** After StopAll no timer is armed, and none of the callbacks already under way commits. */
  lemma StopAllStops(ss: seq<System>, steps: seq<Step>, i: nat, k: nat)
    requires Trace(ss, steps) && i < k < |ss| && steps[i].StopAll?
    ensures forall m :: m in ss[i + 1].t.timers ==> m.phase != Armed
    ensures ss[i].t.next <= |ss[k].t.runs| && ss[k].t.runs[..ss[i].t.next] == ss[i].t.runs
  {
    RunKeepsInv(ss, steps, i);
    assert Enabled(ss[i], steps[i]);
    RunKeepsInv(ss, steps, i + 1);
    GoneForGood(ss, steps, i + 1, k);
  }

  // ------------------------------------------------------------- runs come, and on time

  /** A job with its timer still to go off. */
  ghost predicate Ticking(s: System, id: int, due: int) {
    && Inv(s.t) && id in s.t.jobs && s.t.jobs[id].nextRun == due
    && s.t.timers[s.t.jobs[id].timer].phase == Armed && s.t.timers[s.t.jobs[id].timer].due == due
  }

  /** A new job ticks, and is due one interval later. */
  lemma AddTicks(s: System, b: Birth)
    requires Inv(s.t)
    ensures Ticking(Next(s, Add(b, 0)), s.t.next, s.t.now + b.interval)
    ensures Next(s, Add(b, 0)).t.runs[s.t.next] == []
  {
    ScheduleKeeps(s.t, b, 0);
    hide Inv;
  }

  function WaitFor(s: System, due: int): nat {
    if s.t.now < due then due - s.t.now else 0
  }

  /** From s to u the job has run at that time and was dispatched; then, if it repeats, it ticks again
      and is due one interval after that run; otherwise it has left the table. */
  ghost predicate RanAt(s: System, u: System, id: int, at: int) {
    && id in s.t.jobs && 0 <= id < |s.t.runs| == |u.t.runs| && u.t.now == at
    && var job := s.t.jobs[id];
      && u.t.runs[id] == s.t.runs[id] + [at] && u.dispatches == s.dispatches + [Dispatch(id, Script(job), 0)]
      && if job.repeat then
           && Ticking(u, id, at + job.interval)
           && u.t.jobs[id] == job.(nextRun := u.t.jobs[id].nextRun, timer := u.t.jobs[id].timer)
         else id !in u.t.jobs
  }

  /** A ticking job runs as soon as it is due. */
  lemma RunComes(s: System, id: int, due: int) returns (i: nat, s1: System, s2: System, u: System)
    requires Ticking(s, id, due)
    ensures s1 == Next(s, Wait(WaitFor(s, due)))
    ensures Enabled(s1, Expire(i)) && s2 == Next(s1, Expire(i))
    ensures Enabled(s2, Call(i, 0)) && u == Next(s2, Call(i, 0))
    ensures RanAt(s, u, id, if s.t.now < due then due else s.t.now)
  {
    hide *;
    WaitTicks(s, id, due);
    i := s.t.jobs[id].timer;
    s1 := Next(s, Wait(WaitFor(s, due)));
    ExpireTicks(s1, id, due);
    s2 := Next(s1, Expire(i));
    CallRuns(s2, id);
    u := Next(s2, Call(i, 0));
    RanSame(s, s2, u, id, s2.t.now);
  }

  lemma RanSame(s: System, v: System, u: System, id: int, at: int)
    requires RanAt(v, u, id, at) && v.t.jobs == s.t.jobs && v.t.runs == s.t.runs && v.dispatches == s.dispatches
    ensures RanAt(s, u, id, at)
  {
    hide Script, Ticking;
  }

  lemma WaitTicks(s: System, id: int, due: int)
    requires Ticking(s, id, due)
    ensures id in s.t.jobs && Enabled(s, Wait(WaitFor(s, due)))
    ensures var u := Next(s, Wait(WaitFor(s, due)));
      && Ticking(u, id, due) && due <= u.t.now && u.t.now == (if s.t.now < due then due else s.t.now)
      && u.t.jobs == s.t.jobs && u.t.timers == s.t.timers && u.t.runs == s.t.runs && u.dispatches == s.dispatches
  {
    NextKeepsInv(s, Wait(WaitFor(s, due)));
    hide Inv;
  }

  /** A job whose callback is under way. */
  ghost predicate Called(s: System, id: int) {
    Inv(s.t) && id in s.t.jobs && s.t.timers[s.t.jobs[id].timer].phase == Pending
  }

  lemma ExpireTicks(s: System, id: int, due: int)
    requires Ticking(s, id, due) && due <= s.t.now
    ensures var i := s.t.jobs[id].timer;
      && Enabled(s, Expire(i))
      && var u := Next(s, Expire(i));
        && Called(u, id) && Enabled(u, Call(i, 0)) && u.t.now == s.t.now
        && u.t.jobs == s.t.jobs && u.t.runs == s.t.runs && u.dispatches == s.dispatches
  {
    NextKeepsInv(s, Expire(s.t.jobs[id].timer));
    hide TimersOk, FateOk, TurnsOk;
  }

  lemma CallRuns(s: System, id: int)
    requires Called(s, id) && Enabled(s, Call(s.t.jobs[id].timer, 0))
    ensures RanAt(s, Next(s, Call(s.t.jobs[id].timer, 0)), id, s.t.now)
  {
    hide *;
    CalledIs(s, id);
    var i := s.t.jobs[id].timer;
    var u := Next(s, Call(i, 0));
    NextKeepsInv(s, Call(i, 0));
    CallIs(s, id);
    CommitIs(SetPhase(s.t, i, Over), id);
    RanSo(s, u, id);
  }

  lemma CallIs(s: System, id: int)
    requires id in s.t.jobs && Enabled(s, Call(s.t.jobs[id].timer, 0)) && s.t.timers[s.t.jobs[id].timer].id == id
    ensures var i := s.t.jobs[id].timer; var u := Next(s, Call(i, 0)); var t := SetPhase(s.t, i, Over);
      && u.t == Commit(t, id, 0) && u.dispatches == s.dispatches + [Dispatch(id, Script(s.t.jobs[id]), 0)]
      && t.now == s.t.now && t.jobs == s.t.jobs && t.runs == s.t.runs && |t.timers| == |s.t.timers|
  {
    hide Commit, Script;
  }

  lemma RanSo(s: System, u: System, id: int)
    requires id in s.t.jobs && 0 <= id < |s.t.runs| && Inv(u.t) && u.t.now == s.t.now
    requires u.t.runs == s.t.runs[id := s.t.runs[id] + [s.t.now]]
    requires u.dispatches == s.dispatches + [Dispatch(id, Script(s.t.jobs[id]), 0)]
    requires var job := s.t.jobs[id]; var n := |u.t.timers| - 1;
      if job.repeat then
        && n >= 0 && u.t.jobs == s.t.jobs[id := job.(nextRun := s.t.now + job.interval, timer := n)]
        && u.t.timers[n] == Timer(id, s.t.now + job.interval, Armed)
      else u.t.jobs == s.t.jobs - {id}
    ensures RanAt(s, u, id, s.t.now)
  {
    hide Inv, Script;
  }

  lemma CalledIs(s: System, id: int)
    requires Called(s, id)
    ensures var i := s.t.jobs[id].timer;
      Inv(s.t) && id in s.t.jobs && 0 <= id < |s.t.runs| && i < |s.t.timers| && s.t.timers[i].id == id
  {
    hide TimersOk, FateOk, TurnsOk;
  }

  lemma CommitIs(t: Table, id: int)
    requires id in t.jobs && 0 <= id < |t.runs|
    ensures var (job, u, n) := (t.jobs[id], Commit(t, id, 0), |t.timers|);
      && u.now == t.now && u.runs == t.runs[id := t.runs[id] + [t.now]]
      && u.jobs == (if job.repeat then t.jobs[id := job.(nextRun := t.now + job.interval, timer := n)]
                    else t.jobs - {id})
      && u.timers == t.timers + if job.repeat then [Timer(id, t.now + job.interval, Armed)] else []
  {
  }

  /** n times, from due on, interval apart. */
  function Times(due: int, interval: nat, n: nat): seq<int> {
    if n == 0 then [] else Times(due, interval, n - 1) + [Later(due, interval, n - 1)]
  }

  /** n runs of a repeating job have come since s, each on time, and it ticks on. */
  ghost predicate OnTime(s: System, u: System, id: int, due: int, n: nat) {
    && id in s.t.jobs && id in u.t.jobs && u.t.jobs[id].repeat && u.t.jobs[id].interval == s.t.jobs[id].interval
    && var d := s.t.jobs[id].interval;
      && Ticking(u, id, Later(due, d, n)) && u.t.now <= Later(due, d, n)
      && 0 <= id < |s.t.runs| && id < |u.t.runs| && u.t.runs[id] == s.t.runs[id] + Times(due, d, n)
  }

  /** The runs of a job that nothing disturbs: the first when it is due, the others an interval apart. */
  lemma {:induction false} RunsComeOnTime(s: System, id: int, due: int, n: nat) returns (u: System)
    requires Ticking(s, id, due) && s.t.now <= due && id in s.t.jobs && s.t.jobs[id].repeat
    ensures OnTime(s, u, id, due, n)
  {
    hide *;
    if n == 0 {
      u := s;
      OnTimeAtFirst(s, id, due);
    } else {
      var most := RunsComeOnTime(s, id, due, n - 1);
      var at := Later(due, s.t.jobs[id].interval, n - 1);
      OnTimeIs(s, most, id, due, n - 1);
      var i, s1, s2;
      i, s1, s2, u := RunComes(most, id, at);
      OnTimeOnceMore(s, most, u, id, due, n);
    }
  }

  lemma OnTimeIs(s: System, u: System, id: int, due: int, n: nat)
    requires OnTime(s, u, id, due, n)
    ensures var at := Later(due, s.t.jobs[id].interval, n);
      Ticking(u, id, at) && u.t.now <= at && (if u.t.now < at then at else u.t.now) == at
  {
    hide Ticking, Times, Later;
  }

  lemma OnTimeAtFirst(s: System, id: int, due: int)
    requires Ticking(s, id, due) && s.t.now <= due && id in s.t.jobs && s.t.jobs[id].repeat
    ensures OnTime(s, s, id, due, 0)
  {
    assert 0 <= id < |s.t.runs|;
    LaterStep(due, s.t.jobs[id].interval, 0);
    hide Ticking, Inv, Later;
    assert s.t.runs[id] + [] == s.t.runs[id];
  }

  lemma OnTimeOnceMore(s: System, v: System, u: System, id: int, due: int, n: nat)
    requires n > 0 && OnTime(s, v, id, due, n - 1) && RanAt(v, u, id, Later(due, s.t.jobs[id].interval, n - 1))
    ensures OnTime(s, u, id, due, n)
  {
    hide Ticking, Times, Script, Later, RanAt, Inv;
    var d := s.t.jobs[id].interval;
    LaterStep(due, d, n - 1);
    TimesSnoc(due, d, n);
    RanTicks(v, u, id, Later(due, d, n - 1));
  }

  lemma RanTicks(s: System, u: System, id: int, at: int)
    requires RanAt(s, u, id, at) && s.t.jobs[id].repeat
    ensures id in u.t.jobs && u.t.jobs[id].repeat && u.t.jobs[id].interval == s.t.jobs[id].interval
    ensures Ticking(u, id, at + s.t.jobs[id].interval) && u.t.now == at
    ensures 0 <= id < |s.t.runs| == |u.t.runs| && u.t.runs[id] == s.t.runs[id] + [at]
  {
    hide Ticking, Script, Inv;
    TickingIsJob(u, id, at + s.t.jobs[id].interval);
  }

  lemma TickingIsJob(s: System, id: int, due: int)
    requires Ticking(s, id, due)
    ensures id in s.t.jobs
  {
    hide Inv;
  }

  lemma TimesSnoc(due: int, d: nat, n: nat)
    requires n > 0
    ensures Times(due, d, n) == Times(due, d, n - 1) + [Later(due, d, n - 1)]
  {
  }

  /** The lines that are not blank, trimmed and in order. */
  ghost predicate FiresJust(parts: seq<string>, fired: seq<Out>, places: seq<nat>) {
    && |places| == |fired|
    && (forall i, j :: 0 <= i < j < |places| ==> places[i] < places[j])
    && (forall i :: 0 <= i < |places| ==> places[i] < |parts| && fired[i] == Fired(Trim(parts[places[i]])))
    && (forall p: nat :: p in places <==> p < |parts| && Trim(parts[p]) != "")
  }

  lemma FiresJustSnoc(parts: seq<string>, fired: seq<Out>, places: seq<nat>, part: string)
    requires FiresJust(parts, fired, places)
    ensures Trim(part) == "" ==> FiresJust(parts + [part], fired, places)
    ensures Trim(part) != "" ==> FiresJust(parts + [part], fired + [Fired(Trim(part))], places + [|parts|])
  {
    hide Trim;
    var all := parts + [part];
    forall i | 0 <= i < |places| ensures places[i] < |parts| && all[places[i]] == parts[places[i]] {
    }
    assert forall p: nat :: p in places + [|parts|] <==> p in places || p == |parts|;
  }

  /** What a run fires: each line of its command that is not blank, trimmed, in order. */
  lemma {:induction false} FiredIs(parts: seq<string>) returns (places: seq<nat>)
    ensures FiresJust(parts, FiredLines(parts), places)
  {
    places := [];
    if parts == [] {
      assert FiresJust([], FiredLines([]), []);
    } else {
      var m := |parts| - 1;
      FiredSnoc(parts);
      hide *;
      places := FiredIs(parts[..m]);
      FiresJustSnoc(parts[..m], FiredLines(parts[..m]), places, parts[m]);
      if Trim(parts[m]) != "" {
        places := places + [m];
      }
    }
  }

  lemma FiredSnoc(parts: seq<string>)
    requires parts != []
    ensures var (init, last) := (parts[..|parts| - 1], parts[|parts| - 1]);
      && parts == init + [last]
      && FiredLines(parts) == if Trim(last) == "" then FiredLines(init) else FiredLines(init) + [Fired(Trim(last))]
  {
    hide *;
    LastPart(parts);
    FiredOneMore(parts);
    NothingMore(FiredLines(parts[..|parts| - 1]));
  }

  lemma LastPart(parts: seq<string>)
    requires parts != []
    ensures parts == parts[..|parts| - 1] + [parts[|parts| - 1]]
  {
  }

  lemma NothingMore(out: seq<Out>)
    ensures out + [] == out
  {
  }

  lemma FiredOneMore(parts: seq<string>)
    requires parts != []
    ensures FiredLines(parts)
         == FiredLines(parts[..|parts| - 1])
              + if Trim(parts[|parts| - 1]) == "" then [] else [Fired(Trim(parts[|parts| - 1]))]
  {
    hide Trim;
  }

  lemma ScriptIs(job: Job, parts: seq<string>)
    requires parts != [] && (forall p :: p in parts ==> '\n' !in p) && job.command == Join(parts, "\n")
    ensures Script(job) == [Announced(job.intervalText, job.command)] + FiredLines(parts)
  {
    SplitOfJoin(parts, '\n');
  }

  // ------------------------------------------------------------- what is sent

  /** How many of the dispatches are of the job. */
  function CountOf(ds: seq<Dispatch>, id: int): nat {
    if ds == [] then 0 else CountOf(ds[..|ds| - 1], id) + if ds[|ds| - 1].id == id then 1 else 0
  }

  lemma CountSnoc(ds: seq<Dispatch>, d: Dispatch, id: int)
    ensures CountOf(ds + [d], id) == CountOf(ds, id) + if d.id == id then 1 else 0
  {
    assert (ds + [d])[..|ds|] == ds;
  }

  lemma {:induction false} CountKept(ds: seq<Dispatch>, es: seq<Dispatch>, id: int)
    requires |ds| == |es| && forall r :: 0 <= r < |ds| ==> ds[r].id == es[r].id
    ensures CountOf(ds, id) == CountOf(es, id)
  {
    if ds != [] {
      CountKept(ds[..|ds| - 1], es[..|es| - 1], id);
    }
  }

  /** Each committed run has its dispatch, and each dispatch is of a committed run. */
  ghost predicate Dispatched(s: System) {
    && |s.t.runs| == s.t.next
    && forall id :: 0 <= id < s.t.next ==> CountOf(s.dispatches, id) == |s.t.runs[id]|
  }

  /** What a step does to the dispatches, and to the runs. */
  lemma DispatchFrame(s: System, a: Step)
    requires Inv(s.t) && Enabled(s, a)
    ensures var t := Next(s, a);
      && |s.dispatches| <= |t.dispatches| <= |s.dispatches| + 1
      && (forall r :: 0 <= r < |s.dispatches| ==> t.dispatches[r].id == s.dispatches[r].id)
      && (|t.dispatches| == |s.dispatches| + 1 ==>
            a.Call? && t.dispatches[|s.dispatches|].id == s.t.timers[a.timer].id && s.t.timers[a.timer].id in s.t.jobs)
  {
  }

  lemma RunFrame(s: System, a: Step)
    requires Inv(s.t) && Enabled(s, a)
    ensures var t := Next(s, a).t;
      |s.t.runs| == s.t.next <= |t.runs| == t.next
      && forall id :: 0 <= id < t.next ==>
        |t.runs[id]| == (if id < s.t.next then |s.t.runs[id]| else 0)
          + if a.Call? && s.t.timers[a.timer].id == id && id in s.t.jobs then 1 else 0
  {
    hide Later;
  }

  lemma StepKeepsDispatched(s: System, a: Step)
    requires Inv(s.t) && Enabled(s, a) && Dispatched(s)
    requires forall r :: 0 <= r < |s.dispatches| ==> 0 <= s.dispatches[r].id < s.t.next
    ensures Dispatched(Next(s, a))
    ensures var t := Next(s, a); forall r :: 0 <= r < |t.dispatches| ==> 0 <= t.dispatches[r].id < t.t.next
  {
    var t := Next(s, a);
    DispatchFrame(s, a);
    RunFrame(s, a);
    JobIds(s.t);
    CalledDispatches(s, a);
    hide Next, Inv, Enabled;
    forall id | 0 <= id < t.t.next ensures CountOf(t.dispatches, id) == |t.t.runs[id]| {
      if id >= s.t.next { NoneOf(s.dispatches, id); }
      CountGrows(s.dispatches, t.dispatches, id);
    }
  }

  /** The dispatches after a step: those there were, and perhaps one more. */
  lemma CountGrows(ds: seq<Dispatch>, es: seq<Dispatch>, id: int)
    requires |ds| <= |es| <= |ds| + 1 && forall r :: 0 <= r < |ds| ==> es[r].id == ds[r].id
    ensures CountOf(es, id) == CountOf(ds, id) + if |es| > |ds| && es[|ds|].id == id then 1 else 0
  {
    var n := |ds|;
    CountKept(ds, es[..n], id);
    if |es| == n + 1 {
      assert es == es[..n] + [es[n]];
      CountSnoc(es[..n], es[n], id);
    } else {
      assert es[..n] == es;
    }
  }

  lemma CalledDispatches(s: System, a: Step)
    requires Enabled(s, a)
    ensures a.Call? && s.t.timers[a.timer].id in s.t.jobs ==> |Next(s, a).dispatches| == |s.dispatches| + 1
  {
  }

  lemma JobIds(t: Table)
    requires Inv(t)
    ensures forall id :: id in t.jobs ==> 0 <= id < t.next
  {
  }

  lemma {:induction false} NoneOf(ds: seq<Dispatch>, id: int)
    requires forall r :: 0 <= r < |ds| ==> ds[r].id != id
    ensures CountOf(ds, id) == 0
  {
    if ds != [] {
      NoneOf(ds[..|ds| - 1], id);
    }
  }

  /** The dispatches of a job number its committed runs. */
  lemma {:induction false} RunsAreDispatched(ss: seq<System>, steps: seq<Step>, k: nat)
    requires Trace(ss, steps) && k < |ss|
    ensures Dispatched(ss[k])
    ensures forall r :: 0 <= r < |ss[k].dispatches| ==> 0 <= ss[k].dispatches[r].id < ss[k].t.next
  {
    if k > 0 {
      RunsAreDispatched(ss, steps, k - 1);
      RunKeepsInv(ss, steps, k - 1);
      assert Enabled(ss[k - 1], steps[k - 1]);
      hide Dispatched, Inv, Enabled, Next;
      StepKeepsDispatched(ss[k - 1], steps[k - 1]);
    }
  }

  /** Every dispatch u has beyond those of s is of a job in the table of s or scheduled later. */
  ghost predicate OnlyLater(s: System, u: System) {
    && |s.dispatches| <= |u.dispatches|
    && (forall r :: 0 <= r < |s.dispatches| ==> u.dispatches[r].id == s.dispatches[r].id)
    && (forall r :: |s.dispatches| <= r < |u.dispatches| ==> FromOn(s, u.dispatches[r].id))
  }

  predicate FromOn(s: System, id: int) {
    id in s.t.jobs || s.t.next <= id
  }

  lemma OnlyLaterStep(s: System, u: System, a: Step)
    requires Inv(u.t) && Enabled(u, a) && OnlyLater(s, u)
    requires forall id :: id in u.t.jobs ==> FromOn(s, id)
    ensures OnlyLater(s, Next(u, a))
  {
    DispatchFrame(u, a);
    hide Inv, Enabled, Next, FromOn;
  }

  lemma JobsFromOn(ss: seq<System>, steps: seq<Step>, i: nat, k: nat)
    requires Trace(ss, steps) && i <= k < |ss|
    ensures forall id :: id in ss[k].t.jobs ==> FromOn(ss[i], id)
  {
    GoneForGood(ss, steps, i, k);
    RunKeepsInv(ss, steps, k);
    JobIds(ss[k].t);
    hide Inv, Trace;
  }

  /** From a state on, every new dispatch is of a job that is in the table then or is scheduled
      later. */
  lemma {:induction false} LaterDispatches(ss: seq<System>, steps: seq<Step>, i: nat, k: nat)
    requires Trace(ss, steps) && i <= k < |ss|
    ensures OnlyLater(ss[i], ss[k])
  {
    if i < k {
      assert Enabled(ss[k - 1], steps[k - 1]) && ss[k] == Next(ss[k - 1], steps[k - 1]);
      hide *;
      LaterDispatches(ss, steps, i, k - 1);
      RunKeepsInv(ss, steps, k - 1);
      JobsFromOn(ss, steps, i, k - 1);
      OnlyLaterStep(ss[i], ss[k - 1], steps[k - 1]);
    }
  }

  /** After a job is cancelled no run of it starts: later dispatches are of other jobs. What is still
      announced or sent for it belongs to a run committed before. */
  lemma CancelledNeverDispatches(ss: seq<System>, steps: seq<Step>, i: nat, k: nat)
    requires Trace(ss, steps) && i < k < |ss| && steps[i].Drop? && steps[i].id in ss[i].t.jobs
    ensures |ss[i].dispatches| <= |ss[k].dispatches|
    ensures forall r :: |ss[i].dispatches| <= r < |ss[k].dispatches| ==> ss[k].dispatches[r].id != steps[i].id
    ensures k < |steps| && steps[k].Send? && ss[k].dispatches[steps[k].run].id == steps[i].id ==>
      steps[k].run < |ss[i].dispatches| && ss[i].dispatches[steps[k].run].id == steps[i].id
  {
    assert Enabled(ss[i], steps[i]);
    RunKeepsInv(ss, steps, i);
    JobIds(ss[i].t);
    LaterDispatches(ss, steps, i + 1, k);
    assert k < |steps| ==> Enabled(ss[k], steps[k]);
  }

  /** After StopAll every later dispatch is of a job scheduled later. */
  lemma StopAllEndsDispatches(ss: seq<System>, steps: seq<Step>, i: nat, k: nat)
    requires Trace(ss, steps) && i < k < |ss| && steps[i].StopAll?
    ensures |ss[i].dispatches| <= |ss[k].dispatches|
    ensures forall r :: |ss[i].dispatches| <= r < |ss[k].dispatches| ==> ss[i].t.next <= ss[k].dispatches[r].id
    ensures k < |steps| && steps[k].Send? && ss[k].dispatches[steps[k].run].id < ss[i].t.next ==>
      steps[k].run < |ss[i].dispatches|
  {
    assert Enabled(ss[i], steps[i]);
    LaterDispatches(ss, steps, i + 1, k);
    assert k < |steps| ==> Enabled(ss[k], steps[k]);
  }

  /** What is under way when a job is cancelled goes on: once a run is committed, cancelling the
      job leaves all of it to be announced and sent. */
  lemma CommittedRunOutlivesCancel(s: System, id: int, lag: nat)
    requires id in s.t.jobs && Enabled(s, Call(s.t.jobs[id].timer, lag)) && s.t.timers[s.t.jobs[id].timer].id == id
    ensures var run := |s.dispatches|;
      var committed := Next(s, Call(s.t.jobs[id].timer, lag));
      var cancelled := Next(committed, Drop(id));
      && id !in cancelled.t.jobs
      && |cancelled.dispatches| == run + 1
      && cancelled.dispatches[run] == Dispatch(id, Script(s.t.jobs[id]), 0)
      && Enabled(cancelled, Send(run))
  {
    var i := s.t.jobs[id].timer;
    var committed := Next(s, Call(i, lag));
    ScriptSaysSomething(s.t.jobs[id]);
    CallCommits(s, i, lag);
    CancelledIsGone(committed.t, id);
    hide Next, Cancel, Script;
    DropKeepsDispatches(committed, id);
  }

  lemma ScriptSaysSomething(j: Job)
    ensures |Script(j)| > 0
  {
  }

  lemma CallCommits(s: System, i: nat, lag: nat)
    requires Enabled(s, Call(i, lag)) && s.t.timers[i].id in s.t.jobs
    ensures var id := s.t.timers[i].id;
      Next(s, Call(i, lag)).dispatches == s.dispatches + [Dispatch(id, Script(s.t.jobs[id]), 0)]
  {
    hide Callback, Script;
  }

  lemma DropKeepsDispatches(s: System, id: int)
    ensures Next(s, Drop(id)).dispatches == s.dispatches && Next(s, Drop(id)).t == Cancel(s.t, id)
  {
    hide Cancel;
  }

  lemma CancelledIsGone(t: Table, id: int)
    ensures id !in Cancel(t, id).jobs
  {
  }

  /** The step announces or sends something for the job. */
  predicate Speaks(s: System, a: Step, id: int) {
    a.Send? && a.run < |s.dispatches| && s.dispatches[a.run].id == id
  }

  /** Whatever happens from s on, nothing more is announced or sent for the job. */
  ghost predicate Silent(s: System, id: int) {
    forall ss, steps, k :: Onwards(ss, steps, s) && 0 <= k < |steps| ==> !Speaks(ss[k], steps[k], id)
  }

  /** Every run of the job that was committed has announced and sent all it has. */
  predicate AllOut(s: System, id: int) {
    forall r :: 0 <= r < |s.dispatches| && s.dispatches[r].id == id ==>
      s.dispatches[r].done == |s.dispatches[r].script|
  }

  lemma StepKeepsAllOut(s: System, a: Step, id: int)
    requires Enabled(s, a) && id < s.t.next && id !in s.t.jobs && AllOut(s, id)
    ensures !Speaks(s, a, id)
    ensures id < Next(s, a).t.next && id !in Next(s, a).t.jobs && AllOut(Next(s, a), id)
  {
  }

  lemma {:induction false} StaysOut(ss: seq<System>, steps: seq<Step>, k: nat, id: int)
    requires ss != [] && Onwards(ss, steps, ss[0]) && k < |ss|
    requires id < ss[0].t.next && id !in ss[0].t.jobs && AllOut(ss[0], id)
    ensures id < ss[k].t.next && id !in ss[k].t.jobs && AllOut(ss[k], id)
  {
    if k > 0 {
      StaysOut(ss, steps, k - 1, id);
      assert Enabled(ss[k - 1], steps[k - 1]) && ss[k] == Next(ss[k - 1], steps[k - 1]);
      hide *;
      StepKeepsAllOut(ss[k - 1], steps[k - 1], id);
    }
  }

  /** No more is out of a committed run than it has. */
  ghost predicate DoneOk(s: System) {
    forall r :: 0 <= r < |s.dispatches| ==> s.dispatches[r].done <= |s.dispatches[r].script|
  }

  lemma {:induction false} RunKeepsDone(ss: seq<System>, steps: seq<Step>, k: nat)
    requires Trace(ss, steps) && k < |ss|
    ensures DoneOk(ss[k])
  {
    if k > 0 {
      RunKeepsDone(ss, steps, k - 1);
      assert Enabled(ss[k - 1], steps[k - 1]);
    }
  }

  /** A job that has left the table, in whatever way, is silent from then on if and only if all of its
      committed runs are out. */
  lemma SilentIff(s: System, id: int)
    requires DoneOk(s) && id < s.t.next && id !in s.t.jobs
    ensures Silent(s, id) <==> AllOut(s, id)
  {
    if AllOut(s, id) {
      forall ss, steps, k | Onwards(ss, steps, s) && 0 <= k < |steps| ensures !Speaks(ss[k], steps[k], id) {
        StaysOut(ss, steps, k, id);
        assert Enabled(ss[k], steps[k]);
        hide Next;
        StepKeepsAllOut(ss[k], steps[k], id);
      }
    } else {
      var r :| 0 <= r < |s.dispatches| && s.dispatches[r].id == id && s.dispatches[r].done < |s.dispatches[r].script|;
      var ss, steps := [s, Next(s, Send(r))], [Send(r)];
      assert Enabled(ss[0], steps[0]) && ss[0 + 1] == Next(ss[0], steps[0]);
      assert Onwards(ss, steps, s) && Speaks(ss[0], steps[0], id);
    }
  }

  /** Cancelling a job silences it exactly when every run of it committed by then is out; one that is
      not goes on being announced and sent. */
  lemma CancelSilencesIff(ss: seq<System>, steps: seq<Step>, i: nat)
    requires Trace(ss, steps) && i < |steps| && steps[i].Drop? && steps[i].id in ss[i].t.jobs
    ensures Silent(ss[i + 1], steps[i].id) <==> AllOut(ss[i], steps[i].id)
  {
    var id := steps[i].id;
    assert Enabled(ss[i], steps[i]) && ss[i + 1] == Next(ss[i], Drop(id));
    RunKeepsInv(ss, steps, i);
    JobIds(ss[i].t);
    RunKeepsDone(ss, steps, i + 1);
    CancelledIsGone(ss[i].t, id);
    CancelKeepsNext(ss[i].t, id);
    DropKeepsDispatches(ss[i], id);
    hide Next, Cancel, Silent, DoneOk, Inv, Trace, Onwards;
    SilentIff(ss[i + 1], id);
  }

  /** And StopAll silences all jobs there are exactly when every committed run is out. */
  lemma StopAllSilencesIff(ss: seq<System>, steps: seq<Step>, i: nat, id: int)
    requires Trace(ss, steps) && i < |steps| && steps[i].StopAll? && id < ss[i].t.next
    ensures Silent(ss[i + 1], id) <==> AllOut(ss[i], id)
  {
    assert Enabled(ss[i], steps[i]) && ss[i + 1] == Next(ss[i], StopAll);
    RunKeepsDone(ss, steps, i + 1);
    hide Silent, DoneOk;
    SilentIff(ss[i + 1], id);
  }

  lemma CancelKeepsNext(t: Table, id: int)
    ensures Cancel(t, id).next == t.next
  {
  }

  /** cancel, id by id; what is not an id changes nothing. */
  function CancelAll(t: Table, ids: seq<string>): Table {
    if ids == [] then t
    else
      var u := CancelAll(t, ids[..|ids| - 1]);
      match Atoi(ids[|ids| - 1])
      case None => u
      case Some(id) => Cancel(u, id)
  }

  function Replies(t: Table, ids: seq<string>): seq<string> {
    if ids == [] then []
    else
      var s := ids[|ids| - 1];
      Replies(t, ids[..|ids| - 1]) + [Reply(CancelAll(t, ids[..|ids| - 1]), s)]
  }

  function Reply(t: Table, s: string): string {
    match Atoi(s)
    case None => "(not a task id: " + s + ")"
    case Some(id) =>
      if id in t.jobs then "(cancelling task " + Itoa(id) + " (" + t.jobs[id].command + "))"
      else "(no scheduled task with id " + Itoa(id) + ")"
  }

  /** One reply for each id, in order: that the job is cancelled if it was still there, that it is not
      if it was not or had been named before, or that this is no id. */
  lemma {:induction false} RepliesTell(t: Table, ids: seq<string>, k: nat)
    requires k < |ids|
    ensures |Replies(t, ids)| == |ids|
    ensures Replies(t, ids)[k] == match Atoi(ids[k])
              case None => "(not a task id: " + ids[k] + ")"
              case Some(id) =>
                if id in CancelAll(t, ids[..k]).jobs
                then "(cancelling task " + Itoa(id) + " (" + CancelAll(t, ids[..k]).jobs[id].command + "))"
                else "(no scheduled task with id " + Itoa(id) + ")"
    decreases |ids|
  {
    var m := |ids| - 1;
    hide Atoi, Itoa, CancelAll;
    if m > 0 {
      RepliesTell(t, ids[..m], if k < m then k else m - 1);
    }
    hide Replies;
    RepliesSnoc(t, ids);
    if k < m {
      assert ids[..m][..k] == ids[..k];
    } else {
      hide Reply;
      ReplyIs(CancelAll(t, ids[..m]), ids[m]);
    }
  }

  lemma RepliesSnoc(t: Table, ids: seq<string>)
    requires ids != []
    ensures var m := |ids| - 1; Replies(t, ids) == Replies(t, ids[..m]) + [Reply(CancelAll(t, ids[..m]), ids[m])]
    ensures |ids| == 1 ==> Replies(t, ids[..0]) == []
  {
    hide Reply;
  }

  lemma ReplyIs(t: Table, s: string)
    ensures Reply(t, s) == match Atoi(s)
              case None => "(not a task id: " + s + ")"
              case Some(id) =>
                if id in t.jobs then "(cancelling task " + Itoa(id) + " (" + t.jobs[id].command + "))"
                else "(no scheduled task with id " + Itoa(id) + ")"
  {
  }

  function Named(ids: seq<string>): set<int> {
    set s | s in ids && Atoi(s).Some? :: Atoi(s).value
  }

  lemma NamedSnoc(ids: seq<string>, s: string)
    ensures Named(ids + [s]) == Named(ids) + if Atoi(s).Some? then {Atoi(s).value} else {}
  {
  }

  lemma MinusBoth(m: map<int, Job>, a: set<int>, id: int)
    ensures m - a - {id} == m - (a + {id})
  {
  }

  lemma CancelRemoves(t: Table, id: int)
    requires Inv(t)
    ensures var u := Cancel(t, id); Inv(u) && u.born == t.born && u.runs == t.runs && u.jobs == t.jobs - {id}
  {
    StopKeeps(t, id);
  }

  /** Exactly the named jobs go, and a second mention of one finds it gone. */
  lemma {:induction false} CancelAllRemoves(t: Table, ids: seq<string>)
    requires Inv(t)
    ensures var u := CancelAll(t, ids);
      Inv(u) && u.born == t.born && u.runs == t.runs && u.jobs == t.jobs - Named(ids)
  {
    if ids != [] {
      hide Inv, Atoi, Named;
      var most, s := ids[..|ids| - 1], ids[|ids| - 1];
      CancelAllRemoves(t, most);
      NamedSnoc(most, s);
      assert ids == most + [s];
      hide Cancel;
      if Atoi(s).Some? {
        CancelRemoves(CancelAll(t, most), Atoi(s).value);
        MinusBoth(t.jobs, Named(most), Atoi(s).value);
      } else {
        assert Named(most) + {} == Named(most);
      }
    } else {
      assert t.jobs - Named(ids) == t.jobs;
    }
  }

  class CronTable {
    var clock: int
    var next: nat
    var jobs: map<int, Job>
    var timers: seq<Timer>
    ghost var born: seq<Birth>
    ghost var runs: seq<seq<int>>
    ghost var gone: set<int>

    ghost function View(): Table
      reads this
    {
      Table(clock, next, jobs, timers, born, runs, gone)
    }

    constructor ()
      ensures View() == EMPTY && Inv(View())
    {
      clock, next, jobs, timers, born, runs, gone := 0, 0, map[], [], [], [], {};
    }

    method AddJob(command: string, intervalText: string, interval: nat, repeat: bool, lag: nat) returns (id: nat)
      requires Inv(View())
      modifies this
      ensures Inv(View())
      ensures id == old(next)
      ensures View() == Schedule(old(View()), Birth(old(clock), command, intervalText, interval, repeat), lag)
    {
      ScheduleKeeps(View(), Birth(clock, command, intervalText, interval, repeat), lag);
      hide Inv;
      id := next;
      next := next + 1;
      var job := Job(command, intervalText, interval, repeat, clock + interval, |timers|);
      born := born + [Birth(clock, command, intervalText, interval, repeat)];
      runs := runs + [[]];
      clock := clock + lag;
      timers := timers + [Timer(id, clock + interval, Armed)];
      jobs := jobs[id := job];
    }

    /** run, by timer i's callback; what it announces and fires follows from the job as it was
        when the lock was held. */
    method Run(i: nat, lag: nat) returns (out: seq<Out>)
      requires Inv(View()) && i < |timers| && timers[i].phase == Pending
      modifies this
      ensures Inv(View())
      ensures View() == Callback(old(View()), i, lag)
      ensures out == if old(timers[i].id in jobs) then Script(old(jobs[timers[i].id])) else []
    {
      CallbackKeeps(View(), i, lag);
      assert 0 <= timers[i].id < |runs|;
      hide Inv, Script;
      var id := timers[i].id;
      timers := timers[i := timers[i].(phase := Over)];
      if id !in jobs {
        return [];
      }
      var job := jobs[id];
      Rearm(id, job, lag);
      out := Say(job);
    }

    /** The locked part of run. */
    method Rearm(id: int, job: Job, lag: nat)
      requires id in jobs && jobs[id] == job && 0 <= id < |runs|
      modifies this
      ensures View() == Commit(old(View()), id, lag)
    {
      runs := runs[id := runs[id] + [clock]];
      if job.repeat {
        jobs := jobs[id := job.(nextRun := clock + job.interval, timer := |timers|)];
        timers := timers + [Timer(id, clock + lag + job.interval, Armed)];
      } else {
        jobs := jobs - {id};
      }
      clock := clock + lag;
    }

    /** The unlocked part of run. */
    method Say(job: Job) returns (out: seq<Out>)
      ensures out == Script(job)
    {
      hide Trim, Split;
      out := [Announced(job.intervalText, job.command)];
      var parts := Split(job.command, '\n');
      for k := 0 to |parts|
        invariant out == [Announced(job.intervalText, job.command)] + FiredLines(parts[..k])
      {
        assert parts[..k + 1][..k] == parts[..k];
        var sub := Trim(parts[k]);
        if sub != "" {
          out := out + [Fired(sub)];
        }
      }
      assert parts[..|parts|] == parts;
    }

    method CancelOne(id: int)
      requires Inv(View()) && id in jobs
      modifies this
      ensures Inv(View()) && View() == Cancel(old(View()), id)
    {
      StopKeeps(View(), id);
      var i := jobs[id].timer;
      if timers[i].phase == Armed {
        timers := timers[i := timers[i].(phase := Over)];
      }
      jobs := jobs - {id};
      gone := gone + {id};
    }

    method CancelJobs(ids: seq<string>) returns (out: seq<string>)
      requires Inv(View())
      modifies this
      ensures Inv(View()) && View() == CancelAll(old(View()), ids)
      ensures out == if ids == [] then ["(usage: %cron cancel <id> ...)"] else Replies(old(View()), ids)
    {
      if |ids| == 0 {
        return ["(usage: %cron cancel <id> ...)"];
      }
      ghost var t := View();
      out := [];
      for k := 0 to |ids|
        invariant Inv(View()) && View() == CancelAll(t, ids[..k])
        invariant out == Replies(t, ids[..k])
      {
        assert ids[..k + 1][..k] == ids[..k];
        hide Inv, Cancel, Atoi, Itoa;
        match Atoi(ids[k]) {
          case None =>
            out := out + ["(not a task id: " + ids[k] + ")"];
          case Some(id) =>
            if id !in jobs {
              NothingToCancel(View(), id);
              out := out + ["(no scheduled task with id " + Itoa(id) + ")"];
            } else {
              out := out + ["(cancelling task " + Itoa(id) + " (" + jobs[id].command + "))"];
              CancelOne(id);
            }
        }
      }
      assert ids[..|ids|] == ids;
    }

    method Stop()
      requires Inv(View())
      modifies this
      ensures Inv(View()) && View() == CancelSet(old(View()), old(jobs).Keys)
    {
      ghost var t := View();
      ghost var done: set<int> := {};
      var todo := jobs.Keys;
      NothingCancelled(t);
      hide CancelSet, Cancel, JobsOk, TimersOk, FateOk, TurnsOk;
      while |todo| > 0
        invariant Inv(View()) && View() == CancelSet(t, done)
        invariant todo <= t.jobs.Keys && done == t.jobs.Keys - todo
        decreases |todo|
      {
        Sets.Inhabited(todo);
        var id :| id in todo;
        StillThere(t, done, id);
        CancelOneMore(t, done, id);
        CancelOne(id);
        todo, done := todo - {id}, done + {id};
      }
      NoneLeft(todo);
      assert done == t.jobs.Keys;
    }
  }

  lemma NothingCancelled(t: Table)
    ensures CancelSet(t, {}) == t
  {
    assert CancelSet(t, {}).timers == t.timers;
  }

  lemma StillThere(t: Table, done: set<int>, id: int)
    requires id in t.jobs && id !in done
    ensures id in CancelSet(t, done).jobs
  {
  }

  lemma NothingToCancel(t: Table, id: int)
    requires id !in t.jobs
    ensures Cancel(t, id) == t
  {
  }

  lemma NoneLeft(s: set<int>)
    requires |s| == 0
    ensures s == {}
  {
  }
}
