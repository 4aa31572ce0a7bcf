/** The command demultiplexer (internal/proxy/api/server.go, fanOut and its helpers). */
module FanOut {
  // Lily's lines arrive one at a time; `%begin`/`%end` brackets of several commands interleave,
  // and each raw line is put in one open capture or published as text. Meanwhile an HTTP
  // handler may arm a fetch, which pins the first matching command and takes its result.
  // fanOut's critical sections on a message are separate steps, between which the handler may
  // arm a fetch or give it up.

  import opened Text
  import opened Slcp
  import Sets

  /** cmdCaptureMaxAge, in nanoseconds. */
  const MAX_AGE: int := 60 * 1000000000

  /** A message as fanOut tells them apart. Other covers what it neither buffers nor treats
      as raw output (pongs, export replies, prompts, notifications). */
  datatype Input =
    | Begin(id: int, name: string)
    | End(id: int)
    | Raw(text: string)
    | Other

  datatype Arrival = Arrival(input: Input, now: int)

  function InputOf(m: Message): Input {
    match m.kind
    case MsgCmdBegin => Begin(m.cmdID, m.text)
    case MsgCmdEnd => End(m.cmdID)
    case MsgRaw => Raw(m.text)
    case _ => Other
  }

  /** The brackets of a command reach the demultiplexer with the id and name they were sent
      with. */
  lemma BracketArrives(id: int, name: string)
    ensures var begin := Parse("%begin [" + (Itoa(id) + "]" + name));
      begin.Ok? && InputOf(begin.value) == Begin(id, Trim(name))
    ensures var end := Parse("%end [" + (Itoa(id) + "]" + name));
      end.Ok? && InputOf(end.value) == End(id)
  {
    hide *;
    var rest := Itoa(id) + "]" + name;
    ParseOfBound(rest);
    BoundRoundTrip("%begin [", id, name, MsgCmdBegin);
    BoundRoundTrip("%end [", id, name, MsgCmdEnd);
    BoundInput("%begin [" + rest, id, Trim(name));
    BoundInput("%end [" + rest, id, Trim(name));
  }

  lemma BoundInput(raw: string, id: int, text: string)
    ensures InputOf(Message(MsgCmdBegin, raw, map[], id, text)) == Begin(id, text)
    ensures InputOf(Message(MsgCmdEnd, raw, map[], id, text)) == End(id)
  {
  }

  /** An ordinary line and a tagged one reach it whole. */
  lemma RawArrives(line: string)
    requires ((line == "" || line[0] != '%') && line != "login:" && line != "password:") || "%command [" <= line
    ensures Parse(line).Ok? && InputOf(Parse(line).value) == Raw(line)
  {
    hide Parse;
    ParseOfRaw(line);
  }

  // ------------------------------------------------------------- what should happen

  /** Which command owns a capture is named by the index of its %begin. This is the table of
      open commands after the arrivals, told from the brackets and the clock alone. */
  function OpenAt(arr: seq<Arrival>): (m: map<int, nat>)
    ensures forall id :: id in m ==> m[id] < |arr|
    decreases |arr|, 0
  {
    if arr == [] then map[]
    else
      var n := |arr| - 1;
      var m := OpenBefore(arr, n);
      match arr[n].input
      case Begin(id, _) => m[id := n]
      case End(id) => m - {id}
      case _ => m
  }

  /** The commands open when arrival i is handled: those too old are dropped first. */
  function OpenBefore(arr: seq<Arrival>, i: nat): (m: map<int, nat>)
    requires i < |arr|
    ensures forall id :: id in m ==> m[id] < i
    decreases i, 1
  {
    var m := OpenAt(arr[..i]);
    map id | id in m && arr[i].now - arr[m[id]].now <= MAX_AGE :: m[id]
  }

  lemma Singleton(s: set<int>)
    requires |s| == 1
    ensures exists x :: s == {x}
  {
    Sets.Inhabited(s);
    var x :| x in s;
    assert |s - {x}| == 0;
    assert s == {x};
  }

  ghost function Sole(s: set<int>): (r: int)
    requires |s| == 1
    ensures s == {r}
  {
    Singleton(s);
    var x :| s == {x}; x
  }

  /** The command raw line i belongs to, or None when it is ordinary text: its tag decides,
      and an untagged line belongs to a command only if no other is open. */
  ghost function Owner(arr: seq<Arrival>, i: nat): Option<nat>
    requires i < |arr| && arr[i].input.Raw?
  {
    var m := OpenBefore(arr, i);
    match SplitCommandPrefix(arr[i].input.text)
    case Some((id, _)) => if id in m then Some(m[id]) else None
    case None => if |m| == 1 then Some(m[Sole(m.Keys)]) else None
  }

  /** A line without its tag. */
  function Content(text: string): string {
    match SplitCommandPrefix(text)
    case Some((_, rest)) => rest
    case None => text
  }

  lemma ContentIs(text: string)
    ensures forall id, rest :: IsTagged(text, id, rest) ==> Content(text) == rest
    ensures (forall id, rest :: !IsTagged(text, id, rest)) ==> Content(text) == text
  {
    UntaggedIff(text);
    forall id, rest | IsTagged(text, id, rest) ensures Content(text) == rest {
      SplitIff(text, id, rest);
    }
  }

  ghost predicate Owns(arr: seq<Arrival>, i: nat, o: Option<nat>)
    requires i < |arr|
  {
    arr[i].input.Raw? && Owner(arr, i) == o
  }

  /** The lines owned by o, in order of arrival. */
  ghost function LinesOf(arr: seq<Arrival>, o: Option<nat>): seq<string> {
    if arr == [] then []
    else
      var n := |arr| - 1;
      LinesOf(arr[..n], o) + if Owns(arr, n, o) then [Content(arr[n].input.text)] else []
  }

  /** Commands whose open capture a later %begin with the same id replaces. */
  function Lost(arr: seq<Arrival>): set<nat> {
    if arr == [] then {}
    else
      var n := |arr| - 1;
      var m := OpenBefore(arr, n);
      Lost(arr[..n]) + match arr[n].input
        case Begin(id, _) => if id in m then {m[id]} else {}
        case _ => {}
  }

  // ------------------------------------------------------------- what the code does

  datatype Capture = Capture(lines: seq<string>, started: int, birth: nat)

  datatype Dest = Published | Fetched(f: nat)

  datatype Result = Result(birth: nat, id: int, lines: seq<string>, dest: Dest)

  /** Pinning and Routing: cmdMu has been released and fetchMu not yet taken. */
  datatype Pc = Idle | Pinning(id: int, name: string) | Routing(id: int, capture: Capture)

  datatype State = State(
    arrivals: seq<Arrival>,       // history
    bufs: map<int, Capture>,      // cmdBuffer
    fetchCh: Option<nat>,         // the fetch whose channel is set
    fetchCmdID: int,
    fetchCmd: string,
    pc: Pc,
    results: set<Result>,         // every command result sent on, and where
    texts: seq<string>,           // every raw line published as text
    armed: map<nat, string>,      // every fetch ever armed, with its command
    claims: map<nat, nat>)        // the command each fetch pinned last

  const INITIAL := State([], map[], None, 0, "", Idle, {}, [], map[], map[])

  predicate Stale(c: Capture, now: int) {
    now - c.started > MAX_AGE
  }

  /** flushStaleCaptures. */
  function Flushed(s: State, now: int): State {
    s.(bufs := map id | id in s.bufs && !Stale(s.bufs[id], now) :: s.bufs[id],
       results := s.results
                  + set id | id in s.bufs && Stale(s.bufs[id], now) ::
                      Result(s.bufs[id].birth, id, s.bufs[id].lines, Published))
  }

  function WithLine(s: State, id: int, line: string): State
    requires id in s.bufs
  {
    s.(bufs := s.bufs[id := s.bufs[id].(lines := s.bufs[id].lines + [line])])
  }

  /** The critical section under cmdMu. */
  ghost function Handled(s: State, a: Arrival, birth: nat): State {
    match a.input
    case Begin(id, name) => s.(bufs := s.bufs[id := Capture([], a.now, birth)], pc := Pinning(id, name))
    case End(id) => if id in s.bufs then s.(bufs := s.bufs - {id}, pc := Routing(id, s.bufs[id])) else s
    case Other => s
    case Raw(text) =>
      match SplitCommandPrefix(text)
      case Some((id, rest)) => if id in s.bufs then WithLine(s, id, rest) else s.(texts := s.texts + [rest])
      case None => if |s.bufs| == 1 then WithLine(s, Sole(s.bufs.Keys), text) else s.(texts := s.texts + [text])
  }

  ghost function Received(s: State, a: Arrival): State {
    Handled(Flushed(s, a.now), a, |s.arrivals|).(arrivals := s.arrivals + [a])
  }

  function Verb(s: string): string {
    s[..Span(s, Except(' '))]
  }

  /** fetchLabelMatches. */
  predicate LabelMatches(sent: string, name: string) {
    sent == name || (Verb(sent) != "" && Lower(Verb(sent)) == Lower(Verb(name)))
  }

  function PinnedBy(s: State): State
    requires s.pc.Pinning? && s.arrivals != []
  {
    var t := s.(pc := Idle);
    if s.fetchCh.Some? && s.fetchCmdID == 0 && LabelMatches(s.fetchCmd, s.pc.name)
    then t.(fetchCmdID := s.pc.id, claims := s.claims[s.fetchCh.value := |s.arrivals| - 1]) else t
  }

  function Routed(s: State): State
    requires s.pc.Routing?
  {
    var r := Result(s.pc.capture.birth, s.pc.id, s.pc.capture.lines, Published);
    if s.fetchCh.Some? && s.pc.id == s.fetchCmdID then
      s.(pc := Idle, results := s.results + {r.(dest := Fetched(s.fetchCh.value))}, fetchCh := None, fetchCmdID := 0)
    else s.(pc := Idle, results := s.results + {r})
  }

  datatype Event =
    | Recv(a: Arrival)
    | Pin
    | Route
    | Arm(f: nat, cmd: string)   // fetchLines up to the send
    | GiveUp                     // a send failure or timeout of any fetch clears the channel

  predicate Enabled(s: State, e: Event) {
    match e
    case Recv(_) => s.pc == Idle
    case Pin => s.pc.Pinning? && s.arrivals != []
    case Route => s.pc.Routing?
    case Arm(f, _) => s.fetchCh.None? && f !in s.armed
    case GiveUp => true
  }

  ghost function Step(s: State, e: Event): State
    requires Enabled(s, e)
  {
    match e
    case Recv(a) => Received(s, a)
    case Pin => PinnedBy(s)
    case Route => Routed(s)
    case Arm(f, cmd) => s.(fetchCh := Some(f), fetchCmdID := 0, fetchCmd := cmd, armed := s.armed[f := cmd])
    case GiveUp => s.(fetchCh := None)
  }

  // ------------------------------------------------------------- invariants

  /** The captures are the open commands, each holding exactly the lines it owns. */
  ghost predicate CapturesOk(s: State) {
    var m := OpenAt(s.arrivals);
    && s.bufs.Keys == m.Keys
    && forall id :: id in m ==>
         s.bufs[id] == Capture(LinesOf(s.arrivals, Some(m[id])), s.arrivals[m[id]].now, m[id])
  }

  ghost predicate IsBegin(s: State, b: nat, id: int) {
    b < |s.arrivals| && s.arrivals[b].input.Begin? && s.arrivals[b].input.id == id
  }

  ghost predicate InResults(s: State, b: nat) {
    exists r :: r in s.results && r.birth == b
  }

  ghost predicate IsOpen(s: State, b: nat) {
    exists id :: id in OpenAt(s.arrivals) && OpenAt(s.arrivals)[id] == b
  }

  ghost predicate InTransit(s: State, b: nat) {
    s.pc.Routing? && s.pc.capture.birth == b
  }

  /** A command that has left the table owns no further line. */
  ghost predicate ResultsOk(s: State) {
    && (forall r :: r in s.results ==>
          IsBegin(s, r.birth, r.id) && !IsOpen(s, r.birth) && r.lines == LinesOf(s.arrivals, Some(r.birth)))
    && (s.pc.Routing? ==>
          var c := s.pc.capture;
          && IsBegin(s, c.birth, s.pc.id) && !IsOpen(s, c.birth) && !InResults(s, c.birth)
          && c.lines == LinesOf(s.arrivals, Some(c.birth)))
    && (forall r, t :: r in s.results && t in s.results && r.birth == t.birth ==> r == t)
  }

  // ------------------------------------------------------------- one message

  lemma {:induction false} OpenIsBegin(arr: seq<Arrival>, id: int)
    requires id in OpenAt(arr)
    ensures var b := OpenAt(arr)[id]; b < |arr| && arr[b].input.Begin? && arr[b].input.id == id
    decreases |arr|
  {
    var n := |arr| - 1;
    if !(arr[n].input.Begin? && arr[n].input.id == id) {
      OpenIsBegin(arr[..n], id);
    }
  }

  /** The invariant needed of a state just before fanOut handles an arrival. */
  ghost predicate TableOk(s: State) {
    CapturesOk(s) && ResultsOk(s)
  }

  /** What the old table says once the new arrival has aged it. */
  lemma OpenNow(s: State, a: Arrival)
    requires CapturesOk(s)
    ensures var arr, n := s.arrivals + [a], |s.arrivals|;
            var m := OpenBefore(arr, n);
            && m.Keys == Flushed(s, a.now).bufs.Keys
            && (forall id :: id in m ==> id in s.bufs && m[id] == OpenAt(s.arrivals)[id] && m[id] == s.bufs[id].birth)
            && (forall id :: id in m ==> IsBegin(s, m[id], id))
            && |m| == |Flushed(s, a.now).bufs|
  {
    var arr, n := s.arrivals + [a], |s.arrivals|;
    var m := OpenBefore(arr, n);
    assert arr[..n] == s.arrivals;
    var f := Flushed(s, a.now);
    forall id | id in OpenAt(s.arrivals) ensures id in m <==> id in f.bufs {
      assert arr[OpenAt(s.arrivals)[id]] == s.arrivals[OpenAt(s.arrivals)[id]];
    }
    forall id | id in m ensures IsBegin(s, m[id], id) {
      OpenIsBegin(s.arrivals, id);
    }
    assert forall id :: id in m.Keys <==> id in f.bufs.Keys;
    assert |m| == |m.Keys| && |Flushed(s, a.now).bufs| == |Flushed(s, a.now).bufs.Keys|;
  }

  lemma LinesGrow(arr: seq<Arrival>, a: Arrival, o: Option<nat>)
    ensures var big, n := arr + [a], |arr|;
            LinesOf(big, o) == LinesOf(arr, o) + if Owns(big, n, o) then [Content(a.input.text)] else []
  {
    assert (arr + [a])[..|arr|] == arr;
  }

  /** The capture a raw line goes to is the one its owner names. */
  lemma RawGoesToOwner(s: State, a: Arrival)
    requires CapturesOk(s) && a.input.Raw?
    ensures var arr, n := s.arrivals + [a], |s.arrivals|;
            var f, o := Flushed(s, a.now), Owner(arr, n);
            if o.None? then Handled(f, a, n) == f.(texts := f.texts + [Content(a.input.text)])
            else exists id :: id in f.bufs && id in OpenBefore(arr, n) && OpenBefore(arr, n)[id] == o.value
                   && Handled(f, a, n) == WithLine(f, id, Content(a.input.text))
  {
    OpenNow(s, a);
    var arr, n := s.arrivals + [a], |s.arrivals|;
    var f, m := Flushed(s, a.now), OpenBefore(arr, n);
    if SplitCommandPrefix(a.input.text).None? && |m| == 1 {
      var id := Sole(m.Keys);
      assert |f.bufs.Keys| == 1 && Handled(f, a, n) == WithLine(f, id, a.input.text);
    }
  }

  /** How the table of open commands changes at an arrival. */
  lemma OpenAfter(arr: seq<Arrival>, a: Arrival)
    ensures var m := OpenBefore(arr + [a], |arr|);
            OpenAt(arr + [a]) == match a.input
              case Begin(id, _) => m[id := |arr|]
              case End(id) => m - {id}
              case _ => m
  {
    assert (arr + [a])[..|arr|] == arr;
  }

  /** A capture that is not too old is as it was. */
  lemma AgedCapture(s: State, a: Arrival, id: int)
    requires CapturesOk(s) && id in OpenBefore(s.arrivals + [a], |s.arrivals|)
    ensures var b := OpenBefore(s.arrivals + [a], |s.arrivals|)[id];
            && id in Flushed(s, a.now).bufs && b < |s.arrivals|
            && Flushed(s, a.now).bufs[id] == Capture(LinesOf(s.arrivals, Some(b)), (s.arrivals + [a])[b].now, b)
  {
    OpenNow(s, a);
    hide LinesOf, OpenBefore;
  }

  lemma HandledElse(f: State, a: Arrival, n: nat, id: int)
    requires id in f.bufs && !a.input.Raw?
    requires !(a.input.Begin? && a.input.id == id) && !(a.input.End? && a.input.id == id)
    ensures id in Handled(f, a, n).bufs && Handled(f, a, n).bufs[id] == f.bufs[id]
  {
  }

  /** A capture that stays open, as the table says, has gained exactly what it now owns. */
  lemma OpenCaptureKept(s: State, a: Arrival, id: int)
    requires CapturesOk(s) && id in OpenBefore(s.arrivals + [a], |s.arrivals|)
    requires !(a.input.Begin? && a.input.id == id) && !(a.input.End? && a.input.id == id)
    ensures var m := OpenBefore(s.arrivals + [a], |s.arrivals|);
            var t := Handled(Flushed(s, a.now), a, |s.arrivals|);
            id in t.bufs && t.bufs[id] ==
              Capture(LinesOf(s.arrivals + [a], Some(m[id])), (s.arrivals + [a])[m[id]].now, m[id])
  {
    AgedCapture(s, a, id);
    LinesGrow(s.arrivals, a, Some(OpenBefore(s.arrivals + [a], |s.arrivals|)[id]));
    hide Flushed, Handled, LinesOf, OpenBefore, OpenAt, Owner, Content;
    if a.input.Raw? {
      RawGoesToOwner(s, a);
      RawIsApart(s, a, id);
    } else {
      HandledElse(Flushed(s, a.now), a, |s.arrivals|, id);
    }
    hide CapturesOk;
  }

  /** No other open command than its owner has the number of its owner. */
  lemma RawIsApart(s: State, a: Arrival, id: int)
    requires CapturesOk(s) && a.input.Raw? && id in OpenBefore(s.arrivals + [a], |s.arrivals|)
    ensures var m := OpenBefore(s.arrivals + [a], |s.arrivals|);
            forall x :: x in m && m[x] == m[id] ==> x == id
  {
    OpenNow(s, a);
    hide *;
  }

  /** The ids captures are kept under after an arrival, from those before it. */
  lemma HandledKeys(s: State, a: Arrival, n: nat)
    requires !a.input.Raw?
    ensures Handled(s, a, n).bufs.Keys == match a.input
      case Begin(id, _) => s.bufs.Keys + {id}
      case End(id) => s.bufs.Keys - {id}
      case _ => s.bufs.Keys
  {
  }

  lemma ReceivedKeys(s: State, a: Arrival)
    requires CapturesOk(s)
    ensures Received(s, a).bufs.Keys == OpenAt(s.arrivals + [a]).Keys
  {
    hide OpenAt, OpenBefore, LinesOf, Flushed, CapturesOk, Owner, Handled, Content;
    OpenNow(s, a);
    OpenAfter(s.arrivals, a);
    var f, n := Flushed(s, a.now), |s.arrivals|;
    if a.input.Raw? {
      RawGoesToOwner(s, a);
    } else {
      HandledKeys(f, a, n);
    }
  }

  lemma ReceivedCaptures(s: State, a: Arrival)
    requires CapturesOk(s)
    ensures CapturesOk(Received(s, a))
  {
    var t, n := Received(s, a), |s.arrivals|;
    var arr := t.arrivals;
    ReceivedKeys(s, a);
    OpenAfter(s.arrivals, a);
    var after := OpenAt(arr);
    forall id | id in after
      ensures t.bufs[id] == Capture(LinesOf(arr, Some(after[id])), arr[after[id]].now, after[id])
    {
      if a.input.Begin? && a.input.id == id {
        NoLinesBefore(s.arrivals, n);
        LinesGrow(s.arrivals, a, Some(n));
      } else {
        OpenCaptureKept(s, a, id);
      }
    }
  }

  /** Nothing belongs to a command before it begins. */
  lemma {:induction false} NoLinesBefore(arr: seq<Arrival>, b: nat)
    requires b >= |arr|
    ensures LinesOf(arr, Some(b)) == []
    decreases |arr|
  {
    if arr != [] {
      NoLinesBefore(arr[..|arr| - 1], b);
    }
  }

  /** The commands open after an arrival were open before it, or begin with it. */
  lemma OpenShrinks(s: State, a: Arrival, b: nat)
    requires CapturesOk(s) && b < |s.arrivals| && IsOpen(Received(s, a), b)
    ensures IsOpen(s, b)
    ensures var m := OpenBefore(s.arrivals + [a], |s.arrivals|); exists id :: id in m && m[id] == b
  {
    var t, n := Received(s, a), |s.arrivals|;
    OpenNow(s, a);
    OpenAfter(s.arrivals, a);
    var id :| id in OpenAt(t.arrivals) && OpenAt(t.arrivals)[id] == b;
    assert id in OpenBefore(t.arrivals, n) && OpenBefore(t.arrivals, n)[id] == b;
  }

  /** A command outside the aged table gets nothing from the new arrival. */
  lemma ClosedGetsNothing(s: State, a: Arrival, b: nat)
    requires CapturesOk(s)
    requires forall id :: id in OpenBefore(s.arrivals + [a], |s.arrivals|) ==>
               OpenBefore(s.arrivals + [a], |s.arrivals|)[id] != b
    ensures LinesOf(s.arrivals + [a], Some(b)) == LinesOf(s.arrivals, Some(b))
  {
  }

  /** The results the flush adds: one for each command that has grown too old. */
  lemma FlushedResult(s: State, a: Arrival, r: Result)
    requires TableOk(s) && r in Flushed(s, a.now).results
    ensures r in s.results
            || (r.dest == Published && IsOpen(s, r.birth) && !InResults(s, r.birth) && IsBegin(s, r.birth, r.id)
                && r.id in s.bufs && r.id !in Flushed(s, a.now).bufs && s.bufs[r.id].birth == r.birth
                && r.lines == s.bufs[r.id].lines == LinesOf(s.arrivals, Some(r.birth)))
  {
    if r !in s.results {
      OpenIsBegin(s.arrivals, r.id);
      assert OpenAt(s.arrivals)[r.id] == r.birth;
    }
  }

  /** No command is open twice. */
  lemma OneIdPerCommand(arr: seq<Arrival>, x: int, y: int)
    requires x in OpenAt(arr) && y in OpenAt(arr) && OpenAt(arr)[x] == OpenAt(arr)[y]
    ensures x == y
  {
    OpenIsBegin(arr, x);
    OpenIsBegin(arr, y);
  }

  /** A result already made, or made by the flush, is final. */
  lemma ReceivedResultOk(s: State, a: Arrival, r: Result)
    requires TableOk(s) && r in Received(s, a).results
    ensures var t := Received(s, a);
            IsBegin(t, r.birth, r.id) && !IsOpen(t, r.birth) && r.lines == LinesOf(t.arrivals, Some(r.birth))
  {
    var t := Received(s, a);
    var m := OpenBefore(t.arrivals, |s.arrivals|);
    assert t.results == Flushed(s, a.now).results;
    FlushedResult(s, a, r);
    OpenNow(s, a);
    forall id | id in m ensures m[id] != r.birth {
      assert IsOpen(s, m[id]);
      if r !in s.results && m[id] == r.birth { OneIdPerCommand(s.arrivals, id, r.id); }
    }
    hide *;
    ClosedGetsNothing(s, a, r.birth);
    if IsOpen(t, r.birth) { OpenShrinks(s, a, r.birth); }
  }

  lemma ReceivedUnique(s: State, a: Arrival, r: Result, u: Result)
    requires TableOk(s) && r in Received(s, a).results && u in Received(s, a).results && r.birth == u.birth
    ensures r == u
  {
    FlushedResult(s, a, r);
    FlushedResult(s, a, u);
    assert u in s.results ==> InResults(s, u.birth);
    assert r in s.results ==> InResults(s, r.birth);
  }

  lemma ArrivalsAfter(s: State, a: Arrival)
    ensures Received(s, a).arrivals == s.arrivals + [a]
  {
  }

  /** What the arrival leaves to do once cmdMu is released. */
  lemma PcAfter(s: State, a: Arrival)
    requires s.pc == Idle
    ensures Received(s, a).pc == match a.input
              case Begin(id, name) => Pinning(id, name)
              case End(id) => if id in Flushed(s, a.now).bufs then Routing(id, Flushed(s, a.now).bufs[id]) else Idle
              case _ => Idle
  {
    hide SplitCommandPrefix;
  }

  lemma TransitCapture(s: State, a: Arrival)
    requires TableOk(s) && s.pc == Idle && Received(s, a).pc.Routing?
    ensures var t := Received(s, a);
            var id, c := t.pc.id, t.pc.capture;
            && a.input == End(id) && id in Flushed(s, a.now).bufs && c == s.bufs[id]
            && id in OpenAt(s.arrivals) && OpenAt(s.arrivals)[id] == c.birth && IsOpen(s, c.birth)
            && IsBegin(s, c.birth, id) && c.lines == LinesOf(s.arrivals, Some(c.birth))
  {
    PcAfter(s, a);
    hide Received, LinesOf;
    OpenIsBegin(s.arrivals, a.input.id);
  }

  lemma TransitFresh(s: State, a: Arrival)
    requires TableOk(s) && s.pc == Idle && Received(s, a).pc.Routing?
    ensures !InResults(Received(s, a), Received(s, a).pc.capture.birth)
  {
    TransitCapture(s, a);
    var t := Received(s, a);
    var id, c := t.pc.id, t.pc.capture;
    assert t.results == Flushed(s, a.now).results;
    forall r | r in t.results ensures r.birth != c.birth {
      FlushedResult(s, a, r);
      if r !in s.results && r.birth == c.birth { OneIdPerCommand(s.arrivals, id, r.id); }
    }
  }

  lemma TransitClosed(s: State, a: Arrival)
    requires TableOk(s) && s.pc == Idle && Received(s, a).pc.Routing?
    ensures !IsOpen(Received(s, a), Received(s, a).pc.capture.birth)
  {
    TransitCapture(s, a);
    OpenNow(s, a);
    OpenAfter(s.arrivals, a);
    var t := Received(s, a);
    var id, c := t.pc.id, t.pc.capture;
    forall x | x in OpenAt(t.arrivals) ensures OpenAt(t.arrivals)[x] != c.birth {
      if OpenAt(t.arrivals)[x] == c.birth { OneIdPerCommand(s.arrivals, id, x); }
    }
  }

  lemma ReceivedTransit(s: State, a: Arrival)
    requires TableOk(s) && s.pc == Idle && Received(s, a).pc.Routing?
    ensures var t := Received(s, a); var c := t.pc.capture;
            IsBegin(t, c.birth, t.pc.id) && !IsOpen(t, c.birth) && !InResults(t, c.birth)
            && c.lines == LinesOf(t.arrivals, Some(c.birth))
  {
    TransitCapture(s, a);
    TransitFresh(s, a);
    TransitClosed(s, a);
    LinesGrow(s.arrivals, a, Some(Received(s, a).pc.capture.birth));
  }

  lemma ReceivedTable(s: State, a: Arrival)
    requires TableOk(s) && s.pc == Idle
    ensures TableOk(Received(s, a))
  {
    var t := Received(s, a);
    ReceivedCaptures(s, a);
    forall r | r in t.results
      ensures IsBegin(t, r.birth, r.id) && !IsOpen(t, r.birth) && r.lines == LinesOf(t.arrivals, Some(r.birth))
    {
      ReceivedResultOk(s, a, r);
    }
    forall r, u | r in t.results && u in t.results && r.birth == u.birth ensures r == u {
      ReceivedUnique(s, a, r, u);
    }
    if t.pc.Routing? { ReceivedTransit(s, a); }
  }

  lemma RouteKeepsTable(s: State)
    requires TableOk(s) && s.pc.Routing?
    ensures TableOk(Routed(s))
  {
    hide OpenAt, LinesOf;
    var t := Routed(s);
    forall r | r in t.results
      ensures IsBegin(t, r.birth, r.id) && !IsOpen(t, r.birth) && r.lines == LinesOf(t.arrivals, Some(r.birth))
    {
      if r in s.results { assert InResults(s, r.birth); }
    }
    forall r, u | r in t.results && u in t.results && r.birth == u.birth ensures r == u {
      if r in s.results { assert InResults(s, r.birth); }
      if u in s.results { assert InResults(s, u.birth); }
    }
  }

  /** The other steps leave captures and results alone. */
  lemma SameTable(s: State, t: State)
    requires TableOk(s) && t.arrivals == s.arrivals && t.bufs == s.bufs && t.results == s.results && !t.pc.Routing?
    ensures TableOk(t)
  {
    hide OpenAt, LinesOf;
  }

  lemma GiveUpKeepsTable(s: State)
    requires TableOk(s)
    ensures TableOk(s.(fetchCh := None))
  {
    hide OpenAt, LinesOf;
  }

  lemma ArmKeepsTable(s: State, f: nat, cmd: string)
    requires TableOk(s)
    ensures TableOk(s.(fetchCh := Some(f), fetchCmdID := 0, fetchCmd := cmd, armed := s.armed[f := cmd]))
  {
    hide OpenAt, LinesOf;
  }

  lemma StepKeepsTable(s: State, e: Event)
    requires TableOk(s) && Enabled(s, e)
    ensures TableOk(Step(s, e))
  {
    hide TableOk, Received, Routed;
    match e {
      case Recv(a) => ReceivedTable(s, a);
      case Route => RouteKeepsTable(s);
      case Pin => SameTable(s, PinnedBy(s));
      case Arm(f, cmd) => ArmKeepsTable(s, f, cmd);
      case GiveUp => GiveUpKeepsTable(s);
    }
  }

  /** What was published as text is exactly what nobody owns. */
  lemma ReceivedTexts(s: State, a: Arrival)
    requires CapturesOk(s) && s.texts == LinesOf(s.arrivals, None)
    ensures Received(s, a).texts == LinesOf(s.arrivals + [a], None)
  {
    LinesGrow(s.arrivals, a, None);
    if a.input.Raw? {
      RawGoesToOwner(s, a);
    }
  }

  // ------------------------------------------------------------- where commands go

  ghost predicate IsCommand(s: State, b: nat) {
    b < |s.arrivals| && s.arrivals[b].input.Begin?
  }

  /** The output of command b is somewhere: collected, on its way, or delivered. */
  ghost predicate Kept(s: State, b: nat) {
    IsOpen(s, b) || InResults(s, b) || InTransit(s, b)
  }

  ghost predicate FatesOk(s: State) {
    && (forall b :: b in Lost(s.arrivals) ==> b < |s.arrivals|)
    && (forall b :: IsCommand(s, b) ==> (Kept(s, b) <==> b !in Lost(s.arrivals)))
  }

  lemma LostGrow(arr: seq<Arrival>, a: Arrival)
    ensures var m := OpenBefore(arr + [a], |arr|);
            Lost(arr + [a]) == Lost(arr) + match a.input
              case Begin(id, _) => if id in m then {m[id]} else {}
              case _ => {}
  {
    assert (arr + [a])[..|arr|] == arr;
  }

  lemma TooOldIsFlushed(s: State, a: Arrival, id: int)
    requires TableOk(s) && s.pc == Idle && id in OpenAt(s.arrivals)
    requires id !in OpenBefore(s.arrivals + [a], |s.arrivals|)
    ensures InResults(Received(s, a), OpenAt(s.arrivals)[id])
  {
    OpenNow(s, a);
    assert id in s.bufs && Stale(s.bufs[id], a.now) && s.bufs[id].birth == OpenAt(s.arrivals)[id];
    hide OpenAt, OpenBefore, LinesOf, TableOk;
    var r := Result(s.bufs[id].birth, id, s.bufs[id].lines, Published);
    assert r in Flushed(s, a.now).results;
    ReceivedResults(s, a);
  }

  lemma ReceivedResults(s: State, a: Arrival)
    ensures Received(s, a).results == Flushed(s, a.now).results
  {
  }

  lemma EndedIsRouted(s: State, a: Arrival, id: int)
    requires TableOk(s) && s.pc == Idle && a.input == End(id)
    requires id in OpenBefore(s.arrivals + [a], |s.arrivals|)
    ensures InTransit(Received(s, a), OpenBefore(s.arrivals + [a], |s.arrivals|)[id])
  {
    OpenNow(s, a);
  }

  /** An open command stays kept unless this very arrival replaces it. */
  lemma OpenStaysKept(s: State, a: Arrival, id: int)
    requires TableOk(s) && s.pc == Idle && id in OpenAt(s.arrivals)
    ensures Kept(Received(s, a), OpenAt(s.arrivals)[id]) || OpenAt(s.arrivals)[id] in Lost(s.arrivals + [a])
  {
    var arr, n := s.arrivals + [a], |s.arrivals|;
    var m := OpenBefore(arr, n);
    if id !in m {
      TooOldIsFlushed(s, a, id);
    } else {
      assert m[id] == OpenAt(s.arrivals)[id] by { OpenNow(s, a); }
      if a.input == End(id) {
        EndedIsRouted(s, a, id);
      } else if a.input.Begin? && a.input.id == id {
        LostGrow(s.arrivals, a);
      } else {
        OpenAfter(s.arrivals, a);
        assert id in OpenAt(arr) && OpenAt(arr)[id] == m[id];
      }
    }
  }

  /** The command a %begin replaces is kept nowhere. */
  lemma ReplacedIsGone(s: State, a: Arrival, id: int)
    requires TableOk(s) && s.pc == Idle && a.input.Begin? && a.input.id == id
    requires id in OpenBefore(s.arrivals + [a], |s.arrivals|)
    ensures !Kept(Received(s, a), OpenBefore(s.arrivals + [a], |s.arrivals|)[id])
  {
    ReplacedHasNoResult(s, a, id);
    var t, n := Received(s, a), |s.arrivals|;
    var m := OpenBefore(t.arrivals, n);
    OpenNow(s, a);
    OpenAfter(s.arrivals, a);
    forall x | x in OpenAt(t.arrivals) ensures OpenAt(t.arrivals)[x] != m[id] {
      if x != id && OpenAt(t.arrivals)[x] == m[id] { OneIdPerCommand(s.arrivals, id, x); }
    }
  }

  lemma ReplacedHasNoResult(s: State, a: Arrival, id: int)
    requires TableOk(s) && s.pc == Idle && a.input.Begin? && id in OpenBefore(s.arrivals + [a], |s.arrivals|)
    ensures !InResults(Received(s, a), OpenBefore(s.arrivals + [a], |s.arrivals|)[id])
  {
    var t, n := Received(s, a), |s.arrivals|;
    var m := OpenBefore(t.arrivals, n);
    OpenNow(s, a);
    assert IsOpen(s, m[id]);
    ReceivedResults(s, a);
    forall r | r in t.results ensures r.birth != m[id] {
      FlushedResult(s, a, r);
      if r !in s.results && r.birth == m[id] { OneIdPerCommand(s.arrivals, id, r.id); }
    }
  }

  lemma KeptWasKept(s: State, a: Arrival, b: nat)
    requires TableOk(s) && s.pc == Idle && b < |s.arrivals| && Kept(Received(s, a), b)
    ensures Kept(s, b)
  {
    var t := Received(s, a);
    if IsOpen(t, b) {
      OpenShrinks(s, a, b);
    } else if InResults(t, b) {
      var r :| r in t.results && r.birth == b;
      FlushedResult(s, a, r);
      assert r in s.results ==> InResults(s, b);
    } else {
      TransitCapture(s, a);
    }
  }

  lemma ResultStays(s: State, a: Arrival, b: nat)
    requires InResults(s, b)
    ensures InResults(Received(s, a), b)
  {
    var r :| r in s.results && r.birth == b;
    assert r in Flushed(s, a.now).results;
    ReceivedResults(s, a);
  }

  lemma OldFate(s: State, a: Arrival, b: nat)
    requires TableOk(s) && FatesOk(s) && s.pc == Idle && IsCommand(s, b)
    ensures Kept(Received(s, a), b) <==> b !in Lost(s.arrivals + [a])
  {
    hide Received, OpenBefore, TableOk, IsOpen;
    LostGrow(s.arrivals, a);
    assert Kept(s, b) <==> b !in Lost(s.arrivals);
    if Kept(Received(s, a), b) { KeptWasKept(s, a, b); }
    if b in Lost(s.arrivals + [a]) {
      if b !in Lost(s.arrivals) { ReplacedIsGone(s, a, a.input.id); }
    } else if IsOpen(s, b) {
      var id := OpenId(s, b);
      OpenStaysKept(s, a, id);
    } else {
      ResultStays(s, a, b);
    }
  }

  lemma OpenId(s: State, b: nat) returns (id: int)
    requires IsOpen(s, b)
    ensures id in OpenAt(s.arrivals) && OpenAt(s.arrivals)[id] == b
  {
    id :| id in OpenAt(s.arrivals) && OpenAt(s.arrivals)[id] == b;
  }

  lemma ReceivedFates(s: State, a: Arrival)
    requires TableOk(s) && FatesOk(s) && s.pc == Idle
    ensures FatesOk(Received(s, a))
  {
    var t, n := Received(s, a), |s.arrivals|;
    LostGrow(s.arrivals, a);
    forall b | IsCommand(t, b) ensures Kept(t, b) <==> b !in Lost(t.arrivals) {
      if b == n {
        OpenAfter(s.arrivals, a);
        assert OpenAt(t.arrivals)[a.input.id] == n;
      } else {
        assert IsCommand(s, b);
        OldFate(s, a, b);
      }
    }
  }

  ghost predicate Inv(s: State) {
    TableOk(s) && FatesOk(s) && s.texts == LinesOf(s.arrivals, None)
  }

  lemma RouteKeepsFates(s: State)
    requires s.pc.Routing? && FatesOk(s)
    ensures FatesOk(Routed(s))
  {
  }

  /** The steps of the fetch keep arrivals, captures, results and text. */
  lemma FetchStepKeepsFates(s: State, e: Event)
    requires FatesOk(s) && Enabled(s, e) && (e.Pin? || e.Arm? || e.GiveUp?)
    ensures FatesOk(Step(s, e)) && Step(s, e).texts == s.texts && Step(s, e).arrivals == s.arrivals
  {
    hide LabelMatches, OpenAt, Lost;
    var t := Step(s, e);
    forall b | IsCommand(t, b) ensures Kept(t, b) <==> b !in Lost(t.arrivals) {
      assert IsCommand(s, b);
    }
  }

  lemma StepKeepsInv(s: State, e: Event)
    requires Inv(s) && Enabled(s, e)
    ensures Inv(Step(s, e))
  {
    StepKeepsTable(s, e);
    hide TableOk, FatesOk, LinesOf;
    match e {
      case Recv(a) =>
        ReceivedFates(s, a);
        assert CapturesOk(s) by { TableHasCaptures(s); }
        ReceivedTexts(s, a);
        ReceivedArrivals(s, a);
        hide Received;
      case Route => RouteKeepsFates(s);
      case _ => FetchStepKeepsFates(s, e);
    }
  }

  lemma TableHasCaptures(s: State)
    requires TableOk(s)
    ensures CapturesOk(s)
  {
  }

  lemma ReceivedArrivals(s: State, a: Arrival)
    ensures Received(s, a).arrivals == s.arrivals + [a]
  {
  }

  // ------------------------------------------------------------- the fetch

  /** Ids a well-behaved server uses: not 0, which fetchCmdID keeps for "nothing pinned", and
      not the one a pending fetch is pinned to. */
  predicate Careful(s: State, e: Event) {
    e.Recv? && e.a.input.Begin? ==>
      e.a.input.id != 0 && !(s.fetchCh.Some? && e.a.input.id == s.fetchCmdID)
  }

  ghost predicate Matches(s: State, f: nat, b: nat) {
    && f in s.armed && b < |s.arrivals| && s.arrivals[b].input.Begin?
    && LabelMatches(s.armed[f], s.arrivals[b].input.name)
  }

  /** Fetch f has pinned command b. */
  ghost predicate Claimed(s: State, f: nat, b: nat) {
    f in s.claims && s.claims[f] == b
  }

  /** While a fetch is pinned, only the command it pinned can answer to its id. */
  ghost predicate PinOk(s: State) {
    s.fetchCh.Some? && s.fetchCmdID != 0 ==>
      && s.fetchCh.value in s.claims
      && var b := s.claims[s.fetchCh.value];
        && Matches(s, s.fetchCh.value, b)
        && (s.fetchCmdID in s.bufs ==> s.bufs[s.fetchCmdID].birth == b)
        && (s.pc.Routing? && s.pc.id == s.fetchCmdID ==> s.pc.capture.birth == b)
  }

  /** Every fetch that has been answered was answered by the command it pinned, and that command's
      label matches what was sent. */
  ghost predicate Answered(s: State) {
    forall r :: r in s.results && r.dest.Fetched? ==> Claimed(s, r.dest.f, r.birth) && Matches(s, r.dest.f, r.birth)
  }

  /** Only fetches that were armed are answered, no fetch twice, and none that is still pending. */
  ghost predicate OneAnswer(s: State) {
    && (s.fetchCh.Some? ==>
          s.fetchCh.value in s.armed && forall r :: r in s.results ==> r.dest != Fetched(s.fetchCh.value))
    && (forall r :: r in s.results && r.dest.Fetched? ==> r.dest.f in s.armed)
    && (forall r, t :: r in s.results && t in s.results && r.dest.Fetched? && r.dest == t.dest ==> r == t)
  }

  ghost predicate FetchOk(s: State) {
    && PinOk(s)
    && 0 !in s.bufs && (s.pc.Routing? ==> s.pc.id != 0)
    && (s.fetchCh.Some? ==> s.fetchCh.value in s.armed && s.armed[s.fetchCh.value] == s.fetchCmd)
    && (s.pc.Pinning? ==>
          && s.arrivals != [] && s.arrivals[|s.arrivals| - 1].input == Begin(s.pc.id, s.pc.name)
          && s.pc.id in s.bufs && s.bufs[s.pc.id].birth == |s.arrivals| - 1)
    && OneAnswer(s) && Answered(s)
  }

  lemma FlushPublishes(s: State, now: int, r: Result)
    requires r in Flushed(s, now).results
    ensures r in s.results || r.dest == Published
  {
  }

  /** What an arrival leaves of a capture: an id still there has its old capture or a new one. */
  lemma ReceivedBirths(s: State, a: Arrival, id: int)
    requires !(a.input.Begin? && a.input.id == id)
    ensures var t := Received(s, a);
      id in t.bufs ==> id in s.bufs && t.bufs[id].birth == s.bufs[id].birth
  {
  }

  lemma ReceivedRoutes(s: State, a: Arrival)
    requires s.pc == Idle && Received(s, a).pc.Routing?
    ensures var t := Received(s, a);
      t.pc.id in s.bufs && t.pc.capture.birth == s.bufs[t.pc.id].birth
  {
  }

  predicate SameFetch(s: State, t: State) {
    && t.fetchCh == s.fetchCh && t.fetchCmdID == s.fetchCmdID && t.fetchCmd == s.fetchCmd
    && t.armed == s.armed && t.claims == s.claims
  }

  lemma FlushedFrame(s: State, now: int)
    ensures SameFetch(s, Flushed(s, now)) && Flushed(s, now).arrivals == s.arrivals
    ensures Flushed(s, now).pc == s.pc
  {
  }

  lemma HandledFrame(s: State, a: Arrival, n: nat)
    ensures SameFetch(s, Handled(s, a, n)) && Handled(s, a, n).arrivals == s.arrivals
  {
    match a.input {
      case Raw(text) =>
        forall id, line | id in s.bufs
          ensures SameFetch(s, WithLine(s, id, line)) && WithLine(s, id, line).arrivals == s.arrivals
        {
        }
        hide WithLine, SplitCommandPrefix;
      case _ =>
    }
  }

  lemma ReceivedFrame(s: State, a: Arrival)
    ensures SameFetch(s, Received(s, a)) && Received(s, a).arrivals == s.arrivals + [a]
  {
    FlushedFrame(s, a.now);
    HandledFrame(Flushed(s, a.now), a, |s.arrivals|);
    hide Flushed, Handled;
  }

  lemma RecvKeepsPin(s: State, a: Arrival)
    requires FetchOk(s) && s.pc == Idle && Careful(s, Recv(a))
    ensures PinOk(Received(s, a)) && 0 !in Received(s, a).bufs
    ensures (Received(s, a).pc.Routing? ==> Received(s, a).pc.id != 0)
  {
    var t := Received(s, a);
    ReceivedFrame(s, a);
    if s.fetchCh.Some? && s.fetchCmdID != 0 { ReceivedBirths(s, a, s.fetchCmdID); }
    ReceivedBirths(s, a, 0);
    if t.pc.Routing? { ReceivedRoutes(s, a); }
    hide Received, LabelMatches, Answered;
    if s.fetchCh.Some? && s.fetchCmdID != 0 {
      assert Matches(t, s.fetchCh.value, s.claims[s.fetchCh.value]);
    }
  }

  /** What has been answered stays answered while claims and labels stay. */
  lemma AnsweredStays(s: State, t: State)
    requires Answered(s) && s.arrivals <= t.arrivals
    requires forall r :: r in t.results && r.dest.Fetched? ==> r in s.results
    requires forall r :: r in s.results && r.dest.Fetched? && r.dest.f in s.claims ==>
      r.dest.f in t.claims && t.claims[r.dest.f] == s.claims[r.dest.f]
    requires forall f :: f in s.armed ==> f in t.armed && t.armed[f] == s.armed[f]
    ensures Answered(t)
  {
    forall r | r in t.results && r.dest.Fetched?
      ensures Claimed(t, r.dest.f, r.birth) && Matches(t, r.dest.f, r.birth)
    {
      assert Claimed(s, r.dest.f, r.birth) && Matches(s, r.dest.f, r.birth);
    }
  }

  lemma ReceivedFetched(s: State, a: Arrival, r: Result)
    requires r in Received(s, a).results
    ensures r in s.results || r.dest == Published
  {
    ReceivedResults(s, a);
    FlushPublishes(s, a.now, r);
  }

  lemma ReceivedOneAnswer(s: State, a: Arrival)
    requires OneAnswer(s)
    ensures OneAnswer(Received(s, a))
  {
    ReceivedFrame(s, a);
    forall r | r in Received(s, a).results ensures r in s.results || r.dest == Published {
      ReceivedFetched(s, a, r);
    }
    hide Received;
  }

  lemma ReceivedAnswered(s: State, a: Arrival)
    requires Answered(s)
    ensures Answered(Received(s, a))
  {
    ReceivedFrame(s, a);
    forall r | r in Received(s, a).results ensures r in s.results || r.dest == Published {
      ReceivedFetched(s, a, r);
    }
    hide Received, Matches, Claimed, Answered;
    AnsweredStays(s, Received(s, a));
  }

  lemma RecvKeepsFetch(s: State, a: Arrival)
    requires FetchOk(s) && s.pc == Idle && Careful(s, Recv(a))
    ensures FetchOk(Received(s, a))
  {
    RecvKeepsPin(s, a);
    ReceivedOneAnswer(s, a);
    ReceivedAnswered(s, a);
    ReceivedFrame(s, a);
    ReceivedPins(s, a);
    hide OneAnswer, Answered, PinOk, Received;
  }

  lemma ReceivedPins(s: State, a: Arrival)
    requires s.pc == Idle
    ensures var t := Received(s, a);
      t.pc.Pinning? ==>
        a.input == Begin(t.pc.id, t.pc.name) && t.pc.id in t.bufs && t.bufs[t.pc.id].birth == |s.arrivals|
  {
  }

  lemma RouteKeepsFetch(s: State)
    requires FetchOk(s) && s.pc.Routing?
    ensures FetchOk(Routed(s))
  {
  }

  lemma StepKeepsFetch(s: State, e: Event)
    requires FetchOk(s) && Enabled(s, e) && Careful(s, e)
    ensures FetchOk(Step(s, e))
  {
    match e {
      case Recv(a) => RecvKeepsFetch(s, a);
      case Route => RouteKeepsFetch(s);
      case Arm(f, cmd) =>
        forall r | r in s.results && r.dest.Fetched? ensures Matches(Step(s, e), r.dest.f, r.birth) {
          assert Matches(s, r.dest.f, r.birth);
        }
      case _ =>
        forall r | r in s.results && r.dest.Fetched? ensures Matches(Step(s, e), r.dest.f, r.birth) {
          assert Matches(s, r.dest.f, r.birth);
        }
    }
  }

  // ------------------------------------------------------------- whole runs

  ghost predicate Next(s: State, t: State) {
    exists e :: Enabled(s, e) && t == Step(s, e)
  }

  ghost predicate CarefulNext(s: State, t: State) {
    exists e :: Enabled(s, e) && Careful(s, e) && t == Step(s, e)
  }

  /** Any lines from the server, interleaved with any fetches being armed and given up. */
  ghost predicate Run(trace: seq<State>) {
    && trace != [] && trace[0] == INITIAL
    && forall i :: 0 <= i < |trace| - 1 ==> Next(trace[i], trace[i + 1])
  }

  ghost predicate CarefulRun(trace: seq<State>) {
    && trace != [] && trace[0] == INITIAL
    && forall i :: 0 <= i < |trace| - 1 ==> CarefulNext(trace[i], trace[i + 1])
  }

  lemma NextKeepsInv(s: State, t: State)
    requires Inv(s) && Next(s, t)
    ensures Inv(t)
  {
    var e :| Enabled(s, e) && t == Step(s, e);
    hide Inv, Enabled, Step;
    StepKeepsInv(s, e);
  }

  lemma InitialInv()
    ensures Inv(INITIAL)
  {
  }

  lemma {:induction false} RunKeepsInv(trace: seq<State>, k: nat)
    requires Run(trace) && k < |trace|
    ensures Inv(trace[k])
  {
    hide Inv, Next;
    if k > 0 {
      assert Next(trace[k - 1], trace[k - 1 + 1]);
      RunKeepsInv(trace, k - 1);
      NextKeepsInv(trace[k - 1], trace[k]);
    } else {
      InitialInv();
    }
  }

  lemma {:induction false} CarefulRunKeepsFetch(trace: seq<State>, k: nat)
    requires CarefulRun(trace) && k < |trace|
    ensures FetchOk(trace[k])
  {
    hide FetchOk, CarefulNext;
    if k > 0 {
      assert CarefulNext(trace[k - 1], trace[k - 1 + 1]);
      CarefulRunKeepsFetch(trace, k - 1);
      CarefulNextKeepsFetch(trace[k - 1], trace[k]);
    } else {
      InitialFetchOk();
    }
  }

  lemma CarefulNextKeepsFetch(s: State, t: State)
    requires FetchOk(s) && CarefulNext(s, t)
    ensures FetchOk(t)
  {
    var e :| Enabled(s, e) && Careful(s, e) && t == Step(s, e);
    hide FetchOk, Enabled, Careful, Step;
    StepKeepsFetch(s, e);
  }

  /** Demultiplexing: every result made for command b, delivered or flushed, holds exactly the
      lines that belong to b, in order, and there is one result per command. Whom a line
      belongs to is decided by the brackets around it, never by what was collected. */
  lemma ResultIsOwnOutput(trace: seq<State>, k: nat, r: Result)
    requires Run(trace) && k < |trace| && r in trace[k].results
    ensures r.lines == LinesOf(trace[k].arrivals, Some(r.birth))
    ensures IsBegin(trace[k], r.birth, r.id)
    ensures forall t :: t in trace[k].results && t.birth == r.birth ==> t == r
  {
    RunKeepsInv(trace, k);
  }

  // ------------------------------------------------------------- where a line is

  predicate HasLine(lines: seq<string>, at: nat, text: string) {
    at < |lines| && lines[at] == text
  }

  ghost predicate Collected(s: State, b: nat, at: nat, text: string) {
    exists id :: id in s.bufs && s.bufs[id].birth == b && HasLine(s.bufs[id].lines, at, text)
  }

  ghost predicate Delivered(s: State, b: nat, at: nat, text: string) {
    exists r :: r in s.results && r.birth == b && HasLine(r.lines, at, text)
  }

  ghost predicate OnItsWay(s: State, b: nat, at: nat, text: string) {
    s.pc.Routing? && s.pc.capture.birth == b && HasLine(s.pc.capture.lines, at, text)
  }

  /** Raw line i is in exactly one place. When it belongs to nobody that is the published text;
      else it stands in its command's capture, or in the capture on its way to be delivered, or in
      a result, and no two of these -- unless a later %begin reused the command's id while it was
      open: then, and only then, it is in none of them. */
  lemma LinesConserved(trace: seq<State>, k: nat, i: nat)
    requires Run(trace) && k < |trace|
    requires i < |trace[k].arrivals| && trace[k].arrivals[i].input.Raw?
    ensures var (s, o) := (trace[k], Owner(trace[k].arrivals, i));
      var at, text := |LinesOf(s.arrivals[..i], o)|, Content(s.arrivals[i].input.text);
      if o.None? then HasLine(s.texts, at, text)
      else
        var b := o.value;
        && IsCommand(s, b)
        && (Collected(s, b, at, text) || OnItsWay(s, b, at, text) || Delivered(s, b, at, text)
            <==> b !in Lost(s.arrivals))
        && !(Collected(s, b, at, text) && OnItsWay(s, b, at, text))
        && !(Collected(s, b, at, text) && Delivered(s, b, at, text))
        && !(OnItsWay(s, b, at, text) && Delivered(s, b, at, text))
  {
    RunKeepsInv(trace, k);
    var s := trace[k];
    var o := Owner(s.arrivals, i);
    LineHasItsPlace(s.arrivals, i, o);
    if o.Some? {
      OwnerIsCommand(s.arrivals, i);
      PlacesOfLine(s, o.value, |LinesOf(s.arrivals[..i], o)|, Content(s.arrivals[i].input.text));
    }
  }

  lemma PlacesOfLine(s: State, b: nat, at: nat, text: string)
    requires Inv(s) && HasLine(LinesOf(s.arrivals, Some(b)), at, text)
    ensures Collected(s, b, at, text) <==> IsOpen(s, b)
    ensures Delivered(s, b, at, text) <==> InResults(s, b)
    ensures OnItsWay(s, b, at, text) <==> InTransit(s, b)
    ensures !(IsOpen(s, b) && InTransit(s, b)) && !(IsOpen(s, b) && InResults(s, b))
    ensures !(InTransit(s, b) && InResults(s, b))
  {
    if IsOpen(s, b) {
      var id := OpenId(s, b);
      assert s.bufs[id].birth == b;
    }
  }

  lemma OwnerIsCommand(arr: seq<Arrival>, i: nat)
    requires i < |arr| && arr[i].input.Raw? && Owner(arr, i).Some?
    ensures Owner(arr, i).value < i && arr[Owner(arr, i).value].input.Begin?
  {
    var m := OpenBefore(arr, i);
    var id :| id in m && Owner(arr, i) == Some(m[id]);
    OpenIsBegin(arr[..i], id);
  }

  lemma OwnsPrefix(arr: seq<Arrival>, k: nat, i: nat, o: Option<nat>)
    requires i < k <= |arr|
    ensures Owns(arr[..k], i, o) == Owns(arr, i, o)
  {
    assert arr[..k][..i] == arr[..i];
    assert OpenBefore(arr[..k], i) == OpenBefore(arr, i);
  }

  /** A line stands, in the output it belongs to, right after those that came before it. */
  lemma {:induction false} LineHasItsPlace(arr: seq<Arrival>, i: nat, o: Option<nat>)
    requires i < |arr| && Owns(arr, i, o)
    ensures var at := |LinesOf(arr[..i], o)|;
            at < |LinesOf(arr, o)| && LinesOf(arr, o)[at] == Content(arr[i].input.text)
    decreases |arr|
  {
    var n := |arr| - 1;
    if i < n {
      OwnsPrefix(arr, n, i, o);
      LineHasItsPlace(arr[..n], i, o);
      assert arr[..n][..i] == arr[..i];
    }
  }

  lemma StepKeepsOneAnswer(s: State, e: Event)
    requires OneAnswer(s) && Enabled(s, e)
    ensures OneAnswer(Step(s, e))
  {
    if e.Recv? { ReceivedOneAnswer(s, e.a); }
    hide Received, LabelMatches;
  }

  lemma {:induction false} RunKeepsOneAnswer(trace: seq<State>, k: nat)
    requires Run(trace) && k < |trace|
    ensures OneAnswer(trace[k])
  {
    if k > 0 {
      RunKeepsOneAnswer(trace, k - 1);
      assert Next(trace[k - 1], trace[k - 1 + 1]);
      var e :| Enabled(trace[k - 1], e) && trace[k] == Step(trace[k - 1], e);
      StepKeepsOneAnswer(trace[k - 1], e);
    }
  }

  /** An armed fetch is answered at most once, by the complete output of one command; and, as long as
      ids are used carefully, by that of the command it pinned, whose label matches what was sent. */
  lemma FetchGetsItsCommand(trace: seq<State>, k: nat, r: Result)
    requires Run(trace) && k < |trace| && r in trace[k].results && r.dest != Published
    ensures var s := trace[k];
            && r.dest.f in s.armed && IsBegin(s, r.birth, r.id)
            && r.lines == LinesOf(s.arrivals, Some(r.birth))
            && (forall t :: t in s.results && t.dest == r.dest ==> t == r)
            && (CarefulRun(trace) ==> Claimed(s, r.dest.f, r.birth) && Matches(s, r.dest.f, r.birth))
  {
    ResultIsOwnOutput(trace, k, r);
    RunKeepsOneAnswer(trace, k);
    if CarefulRun(trace) {
      CarefulRunKeepsFetch(trace, k);
    }
    hide LinesOf, Run, CarefulRun, Matches, Claimed;
  }

  // ------------------------------------------------------------- when fetches go right

  /** A continuation of s in which ids are used carefully. */
  ghost predicate CarefulFrom(ss: seq<State>, s: State) {
    && ss != [] && ss[0] == s
    && forall i :: 0 <= i < |ss| - 1 ==> CarefulNext(ss[i], ss[i + 1])
  }

  /** From s on, as long as ids are used carefully, every fetch is answered by its own command. */
  ghost predicate StaysAnswered(s: State) {
    forall ss :: CarefulFrom(ss, s) ==> Answered(ss[|ss| - 1])
  }

  lemma {:induction false} ContinuationKeepsFetch(ss: seq<State>, s: State, k: nat)
    requires CarefulFrom(ss, s) && FetchOk(s) && k < |ss|
    ensures FetchOk(ss[k])
  {
    hide FetchOk, CarefulNext;
    if k > 0 {
      assert CarefulNext(ss[k - 1], ss[k - 1 + 1]);
      ContinuationKeepsFetch(ss, s, k - 1);
      CarefulNextKeepsFetch(ss[k - 1], ss[k]);
    }
  }

  lemma FetchOkStaysAnswered(s: State)
    requires FetchOk(s)
    ensures StaysAnswered(s)
  {
    forall ss | CarefulFrom(ss, s) ensures Answered(ss[|ss| - 1]) {
      ContinuationKeepsFetch(ss, s, |ss| - 1);
    }
  }

  lemma TakesCarefully(s: State, e: Event)
    requires Enabled(s, e) && Careful(s, e)
    ensures CarefulNext(s, Step(s, e))
  {
  }

  lemma Prepended(s: State, t: State)
    requires CarefulNext(s, t) && !StaysAnswered(t)
    ensures !StaysAnswered(s)
  {
    hide CarefulNext, Answered;
    var ss :| CarefulFrom(ss, t) && !Answered(ss[|ss| - 1]);
    assert CarefulFrom([s] + ss, s);
  }

  lemma NotAnswered(s: State)
    requires !Answered(s)
    ensures !StaysAnswered(s)
  {
    assert CarefulFrom([s], s);
  }

  /** A fetch waits for id, and the command open under id is not the one it pinned. */
  ghost predicate Misled(s: State, id: int, now: int) {
    && s.pc == Idle && s.fetchCh.Some? && s.fetchCmdID == id
    && id in s.bufs && s.bufs[id].started == now && !Claimed(s, s.fetchCh.value, s.bufs[id].birth)
  }

  /** The end of that command's bracket then answers the fetch. */
  lemma MisledIsMisanswered(s: State, id: int, now: int)
    requires Misled(s, id, now)
    ensures !StaysAnswered(s)
  {
    var end := Recv(Arrival(End(id), now));
    var t := Step(s, end);
    assert t.pc == Routing(id, s.bufs[id]) && t.fetchCh == s.fetchCh && t.fetchCmdID == id && t.claims == s.claims;
    var u := Step(t, Route);
    var r := Result(s.bufs[id].birth, id, s.bufs[id].lines, Fetched(s.fetchCh.value));
    assert r in u.results && u.claims == s.claims;
    TakesCarefully(s, end);
    TakesCarefully(t, Route);
    NotAnswered(u);
    Prepended(t, u);
    Prepended(s, t);
  }

  /** Without care about the pinned id: the command that reuses it answers the fetch, in place of
      the one that was pinned. */
  lemma PinnedIdAnswersTheFetch(s: State, a: Arrival)
    requires FetchOk(s) && s.pc == Idle && a.input.Begin? && a.input.id != 0
    requires s.fetchCh.Some? && a.input.id == s.fetchCmdID
    ensures !StaysAnswered(Step(s, Recv(a)))
  {
    var t := Step(s, Recv(a));
    var u := Step(t, Pin);
    assert u.bufs == t.bufs && u.bufs[a.input.id] == Capture([], a.now, |s.arrivals|);
    assert u.fetchCh == s.fetchCh && u.claims == s.claims;
    TakesCarefully(t, Pin);
    MisledIsMisanswered(u, a.input.id, a.now);
    Prepended(t, u);
  }

  lemma Unused(m: map<nat, string>, n: map<nat, nat>) returns (f: nat)
    ensures f !in m && f !in n
  {
    var keys := m.Keys + n.Keys;
    f := 0;
    var seen: set<nat> := {};
    while f in keys
      invariant seen <= keys && forall x :: x in seen ==> x < f
      decreases keys - seen
    {
      seen := seen + {f};
      f := f + 1;
    }
  }

  /** Without care about id 0: whatever fetch is pending, another may take its place while command
      0 is open, and then command 0 answers it, though it pinned nothing. */
  lemma ZeroIdAnswersAnyFetch(s: State, a: Arrival)
    requires s.pc == Idle && a.input.Begin? && a.input.id == 0
    ensures !StaysAnswered(Step(s, Recv(a)))
  {
    var t := Step(s, Recv(a));
    var u := Step(t, Pin);
    var v := Step(u, GiveUp);
    var f := Unused(v.armed, v.claims);
    var w := Step(v, Arm(f, ""));
    assert w.bufs == t.bufs && w.bufs[0] == Capture([], a.now, |s.arrivals|);
    TakesCarefully(t, Pin);
    TakesCarefully(u, GiveUp);
    TakesCarefully(v, Arm(f, ""));
    MisledIsMisanswered(w, 0, a.now);
    Prepended(v, w);
    Prepended(u, v);
    Prepended(t, u);
  }

  /** The exact condition, message by message: after a careful run a %begin leaves every fetch,
      pending or to come, safe from being answered by a command it did not pin, if and only if its
      id is not 0 and not the one a pending fetch is pinned to. */
  lemma CarefulIffStaysAnswered(s: State, a: Arrival)
    requires FetchOk(s) && s.pc == Idle
    ensures Careful(s, Recv(a)) <==> StaysAnswered(Step(s, Recv(a)))
  {
    if Careful(s, Recv(a)) {
      StepKeepsFetch(s, Recv(a));
      FetchOkStaysAnswered(Step(s, Recv(a)));
    } else if a.input.id == 0 {
      ZeroIdAnswersAnyFetch(s, a);
    } else {
      PinnedIdAnswersTheFetch(s, a);
    }
  }

  /** And over whole runs. */
  lemma CarefulRunIff(trace: seq<State>)
    requires Run(trace)
    ensures CarefulRun(trace) <==> forall k :: 0 <= k < |trace| ==> StaysAnswered(trace[k])
  {
    if CarefulRun(trace) {
      forall k | 0 <= k < |trace| ensures StaysAnswered(trace[k]) {
        CarefulRunKeepsFetch(trace, k);
        FetchOkStaysAnswered(trace[k]);
      }
    }
    if forall k :: 0 <= k < |trace| ==> StaysAnswered(trace[k]) {
      forall k | 0 <= k < |trace| - 1 ensures CarefulNext(trace[k], trace[k + 1]) {
        AnsweredRunIsCareful(trace, k);
      }
    }
  }

  lemma {:induction false} AnsweredRunIsCareful(trace: seq<State>, k: nat)
    requires Run(trace) && k + 1 < |trace|
    requires forall i :: 0 <= i < |trace| ==> StaysAnswered(trace[i])
    ensures FetchOk(trace[k]) && CarefulNext(trace[k], trace[k + 1])
  {
    hide StaysAnswered, FetchOk;
    if k > 0 {
      AnsweredRunIsCareful(trace, k - 1);
      CarefulNextKeepsFetch(trace[k - 1], trace[k]);
    } else {
      InitialFetchOk();
    }
    assert Next(trace[k], trace[k + 1]);
    AnsweredStepIsCareful(trace[k], trace[k + 1]);
  }

  lemma InitialFetchOk()
    ensures FetchOk(INITIAL)
  {
  }

  lemma AnsweredStepIsCareful(s: State, t: State)
    requires FetchOk(s) && Next(s, t) && StaysAnswered(t)
    ensures CarefulNext(s, t)
  {
    var e :| Enabled(s, e) && t == Step(s, e);
    hide FetchOk, StaysAnswered, Step;
    if e.Recv? {
      CarefulIffStaysAnswered(s, e.a);
    }
  }

  // ------------------------------------------------------------- brackets

  /** Command b with this id is open after the arrivals: begun, not ended, not replaced and
      never found too old. */
  ghost predicate Bracket(arr: seq<Arrival>, id: int, b: nat) {
    && b < |arr| && arr[b].input.Begin? && arr[b].input.id == id
    && forall j :: b < j < |arr| ==>
         && arr[j].input != End(id) && !(arr[j].input.Begin? && arr[j].input.id == id)
         && arr[j].now - arr[b].now <= 60_000_000_000
  }

  lemma BracketSnoc(arr: seq<Arrival>, id: int, b: nat)
    requires arr != []
    ensures var (n, a) := (|arr| - 1, arr[|arr| - 1]);
            Bracket(arr, id, b) <==>
              (b == n && a.input.Begin? && a.input.id == id)
              || (b < n && Bracket(arr[..n], id, b) && a.now - arr[b].now <= 60_000_000_000
                  && a.input != End(id) && !(a.input.Begin? && a.input.id == id))
  {
    var init := arr[..|arr| - 1];
    assert forall j :: 0 <= j < |init| ==> init[j] == arr[j];
  }

  lemma {:induction false} OpenIffBracket(arr: seq<Arrival>, id: int, b: nat)
    ensures id in OpenAt(arr) && OpenAt(arr)[id] == b <==> Bracket(arr, id, b)
    decreases |arr|
  {
    if arr != [] {
      var n := |arr| - 1;
      var init := arr[..n];
      OpenIffBracket(init, id, b);
      BracketSnoc(arr, id, b);
      hide Bracket;
    }
  }

  /** The bracket of b is open when arrival i is handled. */
  ghost predicate BracketBefore(arr: seq<Arrival>, i: nat, id: int, b: nat)
    requires i < |arr|
  {
    Bracket(arr[..i], id, b) && arr[i].now - arr[b].now <= 60_000_000_000
  }

  /** The line carries id's tag, or no tag while only id's bracket is open. */
  ghost predicate Addressed(arr: seq<Arrival>, i: nat, id: int)
    requires i < |arr| && arr[i].input.Raw?
  {
    || (exists rest :: IsTagged(arr[i].input.text, id, rest))
    || ((forall tag, rest :: !IsTagged(arr[i].input.text, tag, rest))
        && forall x, c :: BracketBefore(arr, i, x, c) ==> x == id)
  }

  lemma AddressedIs(arr: seq<Arrival>, i: nat, id: int)
    requires i < |arr| && arr[i].input.Raw?
    ensures Addressed(arr, i, id) <==>
              match SplitCommandPrefix(arr[i].input.text)
              case Some((tag, _)) => tag == id
              case None => forall x, c :: BracketBefore(arr, i, x, c) ==> x == id
  {
    var text := arr[i].input.text;
    UntaggedIff(text);
    if SplitCommandPrefix(text).Some? {
      var (tag, rest) := SplitCommandPrefix(text).value;
      SplitIff(text, tag, rest);
    }
    forall t, r | IsTagged(text, t, r) ensures SplitCommandPrefix(text) == Some((t, r)) {
      SplitIff(text, t, r);
    }
    hide SplitCommandPrefix, IsTagged, BracketBefore;
  }

  lemma TableIsBrackets(arr: seq<Arrival>, i: nat)
    requires i < |arr|
    ensures forall id, c :: (id in OpenBefore(arr, i) && OpenBefore(arr, i)[id] == c) <==> BracketBefore(arr, i, id, c)
  {
    forall id, c
      ensures (id in OpenBefore(arr, i) && OpenBefore(arr, i)[id] == c) <==> BracketBefore(arr, i, id, c)
    {
      OpenIffBracket(arr[..i], id, c);
    }
  }

  lemma SoleBracket(arr: seq<Arrival>, i: nat, id: int, b: nat)
    requires i < |arr| && BracketBefore(arr, i, id, b)
    ensures (forall x, c :: BracketBefore(arr, i, x, c) ==> x == id) <==> |OpenBefore(arr, i)| == 1
    ensures |OpenBefore(arr, i)| == 1 ==> Sole(OpenBefore(arr, i).Keys) == id
  {
    var m := OpenBefore(arr, i);
    TableIsBrackets(arr, i);
    assert id in m.Keys && |m| == |m.Keys|;
    if forall x, c :: BracketBefore(arr, i, x, c) ==> x == id {
      forall x | x in m ensures x == id { assert BracketBefore(arr, i, x, m[x]); }
      var only: set<int> := {id};
      assert forall x :: x in m.Keys <==> x in only;
      assert m.Keys == only;
    }
    if |m| == 1 {
      var sole := Sole(m.Keys);
      forall x, c | BracketBefore(arr, i, x, c) ensures x == id { assert x in m.Keys; }
    }
  }

  /** Told from the brackets: a line belongs to b exactly when b's bracket is open around it
      and the line is addressed to b's id. */
  lemma OwnerIsByBracket(arr: seq<Arrival>, i: nat, b: nat)
    requires i < |arr| && arr[i].input.Raw?
    ensures Owner(arr, i) == Some(b) <==> exists id :: BracketBefore(arr, i, id, b) && Addressed(arr, i, id)
  {
    var m := OpenBefore(arr, i);
    TableIsBrackets(arr, i);
    if Owner(arr, i) == Some(b) {
      var id :| id in m && m[id] == b && (SplitCommandPrefix(arr[i].input.text).None? ==> |m| == 1)
                && (SplitCommandPrefix(arr[i].input.text).Some? ==>
                      SplitCommandPrefix(arr[i].input.text).value.0 == id);
      assert BracketBefore(arr, i, id, b);
      SoleBracket(arr, i, id, b);
      AddressedIs(arr, i, id);
      assert Addressed(arr, i, id);
    }
    if id :| BracketBefore(arr, i, id, b) && Addressed(arr, i, id) {
      SoleBracket(arr, i, id, b);
      AddressedIs(arr, i, id);
    }
  }

  /** The %begin at i reuses the id of the bracket of b while that is open. */
  ghost predicate Replaces(arr: seq<Arrival>, i: nat, b: nat)
    requires i < |arr|
  {
    arr[i].input.Begin? && BracketBefore(arr, i, arr[i].input.id, b)
  }

  lemma LostSnoc(arr: seq<Arrival>, b: nat)
    requires arr != []
    ensures b in Lost(arr) <==> b in Lost(arr[..|arr| - 1]) || Replaces(arr, |arr| - 1, b)
  {
    var n := |arr| - 1;
    TableIsBrackets(arr, n);
    if arr[n].input.Begin? {
      assert arr[n].input.id in OpenBefore(arr, n) && OpenBefore(arr, n)[arr[n].input.id] == b
        <==> BracketBefore(arr, n, arr[n].input.id, b);
    }
    hide BracketBefore, OpenBefore;
  }

  /** Told from the brackets: the commands whose lines are lost are those that a later %begin
      replaced. */
  lemma {:induction false} LostIsByBracket(arr: seq<Arrival>, b: nat)
    ensures b in Lost(arr) <==> exists i: nat :: i < |arr| && Replaces(arr, i, b)
    decreases |arr|
  {
    if arr != [] {
      var n := |arr| - 1;
      LostIsByBracket(arr[..n], b);
      LostSnoc(arr, b);
      forall i: nat | i < n ensures Replaces(arr[..n], i, b) <==> Replaces(arr, i, b) {
        assert arr[..n][..i] == arr[..i];
      }
      hide Replaces, Lost;
      if i: nat :| i < |arr| && Replaces(arr, i, b) {
        assert i < n ==> Replaces(arr[..n], i, b);
      }
      if b in Lost(arr[..n]) {
        var i: nat :| i < n && Replaces(arr[..n], i, b);
        assert Replaces(arr, i, b);
      }
    }
  }

  /** Where a raw line goes: with a tag, to the capture it names, or to the text without the tag; with
      none, to the sole capture there is, or to the text. */
  lemma RawIsRouted(s: State, a: Arrival, b: nat)
    requires a.input.Raw?
    ensures forall id, rest :: IsTagged(a.input.text, id, rest) ==>
              Handled(s, a, b) == if id in s.bufs then WithLine(s, id, rest) else s.(texts := s.texts + [rest])
    ensures (forall id, rest :: !IsTagged(a.input.text, id, rest)) ==>
              && (forall id :: s.bufs.Keys == {id} ==> Handled(s, a, b) == WithLine(s, id, a.input.text))
              && ((forall id :: s.bufs.Keys != {id}) ==>
                    Handled(s, a, b) == s.(texts := s.texts + [a.input.text]))
  {
    var text := a.input.text;
    UntaggedIff(text);
    forall id, rest | IsTagged(text, id, rest) ensures SplitCommandPrefix(text) == Some((id, rest)) {
      SplitIff(text, id, rest);
    }
    hide SplitCommandPrefix, IsTagged, WithLine;
    assert |s.bufs| == |s.bufs.Keys|;
    if |s.bufs| == 1 {
      assert s.bufs.Keys == {Sole(s.bufs.Keys)};
    }
  }

  // ------------------------------------------------------------- fetches are answered

  /** The text up to the first blank. */
  ghost predicate IsVerb(text: string, verb: string) {
    ' ' !in verb && (text == verb || verb + " " <= text)
  }

  lemma VerbIs(text: string, verb: string)
    ensures IsVerb(text, verb) <==> verb == Verb(text)
  {
    var n := Span(text, Except(' '));
    assert forall i :: 0 <= i < n ==> text[i] != ' ';
    if IsVerb(text, verb) {
      assert forall i :: 0 <= i < |verb| ==> verb[i] in verb && text[i] == verb[i];
      if text != verb { assert text[|verb|] == (verb + " ")[|verb|] == ' '; }
      SpanIs(text, Except(' '), |verb|);
    }
  }

  /** When a label is taken for the command that was sent: the two are equal, or they start with the
      same word, bar case. */
  lemma LabelMatchesIff(sent: string, name: string)
    ensures LabelMatches(sent, name) <==>
              sent == name || exists u, v :: u != "" && IsVerb(sent, u) && IsVerb(name, v) && SameBarCase(u, v)
  {
    VerbIs(sent, Verb(sent));
    VerbIs(name, Verb(name));
    LowerIsFolding(Verb(sent), Verb(name));
    forall u, v | IsVerb(sent, u) && IsVerb(name, v) ensures u == Verb(sent) && v == Verb(name) {
      VerbIs(sent, u);
      VerbIs(name, v);
    }
    hide Verb, IsVerb, SameBarCase, Lower;
  }

  /** The fetch has pinned the command b, which is open. */
  ghost predicate Waiting(s: State, f: nat, id: int, b: nat, start: int) {
    && s.fetchCh == Some(f) && s.fetchCmdID == id && id != 0
    && id in s.bufs && s.bufs[id].birth == b && s.bufs[id].started == start
    && !(s.pc.Routing? && s.pc.id == id)
  }

  /** The fetch is not given up, and no message ends the command, reuses its id or finds it too old. */
  predicate Spares(e: Event, id: int, start: int) {
    && !e.GiveUp?
    && (e.Recv? ==> e.a.now - start <= 60_000_000_000 && e.a.input != End(id)
                    && !(e.a.input.Begin? && e.a.input.id == id))
  }

  lemma FlushSpares(s: State, now: int, id: int)
    requires id in s.bufs && now - s.bufs[id].started <= 60_000_000_000
    ensures id in Flushed(s, now).bufs && Flushed(s, now).bufs[id] == s.bufs[id]
  {
  }

  lemma HandledSpares(s: State, a: Arrival, n: nat, id: int)
    requires id in s.bufs && a.input != End(id) && !(a.input.Begin? && a.input.id == id)
    requires !s.pc.Routing?
    ensures var t := Handled(s, a, n);
      && id in t.bufs && t.bufs[id].birth == s.bufs[id].birth && t.bufs[id].started == s.bufs[id].started
      && !(t.pc.Routing? && t.pc.id == id)
  {
    hide SplitCommandPrefix;
  }

  lemma WaitingKept(s: State, e: Event, f: nat, id: int, b: nat, start: int)
    requires Waiting(s, f, id, b, start) && Enabled(s, e) && Spares(e, id, start)
    ensures Waiting(Step(s, e), f, id, b, start)
  {
    if e.Recv? {
      FlushSpares(s, e.a.now, id);
      FlushedRest(s, e.a.now);
      HandledSpares(Flushed(s, e.a.now), e.a, |s.arrivals|, id);
      ReceivedFrame(s, e.a);
      hide Handled, Flushed;
    }
    hide LabelMatches, Received;
  }

  lemma BeginPins(s: State, a: Arrival, f: nat)
    requires s.pc == Idle && s.fetchCh == Some(f) && s.fetchCmdID == 0
    requires a.input.Begin? && a.input.id != 0 && LabelMatches(s.fetchCmd, a.input.name)
    ensures var t := Step(s, Recv(a));
      && Enabled(t, Pin) && (forall e :: Enabled(t, e) ==> e.Pin? || e.GiveUp?)
      && Waiting(Step(t, Pin), f, a.input.id, |s.arrivals|, a.now)
  {
    ReceivedFrame(s, a);
    PcAfter(s, a);
    BegunCapture(s, a);
    hide Received, LabelMatches;
  }

  lemma BegunCapture(s: State, a: Arrival)
    requires a.input.Begin?
    ensures var t := Received(s, a); a.input.id in t.bufs && t.bufs[a.input.id] == Capture([], a.now, |s.arrivals|)
  {
  }

  lemma EndAnswers(s: State, a: Arrival, f: nat, b: nat, start: int)
    requires s.pc == Idle && a.input.End? && a.now - start <= 60_000_000_000
    requires Waiting(s, f, a.input.id, b, start)
    ensures var t := Step(s, Recv(a));
      && Enabled(t, Route) && (forall e :: Enabled(t, e) ==> e.Route? || e.GiveUp?)
      && Step(t, Route).fetchCh == None
      && exists r :: r in Step(t, Route).results && r.dest == Fetched(f) && r.birth == b && r.id == a.input.id
  {
    FlushSpares(s, a.now, a.input.id);
    PcAfter(s, a);
    ReceivedFrame(s, a);
    hide Received, Flushed;
    var t := Step(s, Recv(a));
    var r := Result(b, a.input.id, t.pc.capture.lines, Fetched(f));
    assert r in Step(t, Route).results;
  }

  /** A run of events. */
  ghost predicate Path(ss: seq<State>, es: seq<Event>) {
    && |ss| == |es| + 1
    && forall i {:trigger es[i]} :: 0 <= i < |es| ==> Enabled(ss[i], es[i]) && ss[i + 1] == Step(ss[i], es[i])
  }

  lemma {:induction false} WaitingThrough(
    ss: seq<State>, es: seq<Event>, i: nat, k: nat, f: nat, id: int, b: nat, start: int)
    requires Path(ss, es) && i <= k < |ss| && Waiting(ss[i], f, id, b, start)
    requires forall j :: i <= j < k ==> Spares(es[j], id, start)
    ensures Waiting(ss[k], f, id, b, start)
  {
    if i < k {
      WaitingThrough(ss, es, i, k - 1, f, id, b, start);
      assert Spares(es[k - 1], id, start);
      hide Waiting, Step, Enabled, Spares;
      WaitingKept(ss[k - 1], es[k - 1], f, id, b, start);
    }
  }

  /** A pending fetch is answered. Once a command begins whose label matches what was sent, and its
      output comes to an end in time, the fetch gets the result of that very command -- whatever else
      arrives meanwhile, unless the fetch is given up or the id is used again. */
  lemma FetchIsAnswered(ss: seq<State>, es: seq<Event>, f: nat)
    requires Path(ss, es) && |es| >= 4 && es[0].Recv? && es[0].a.input.Begin? && !es[1].GiveUp?
    requires var s := ss[0]; s.pc == Idle && s.fetchCh == Some(f) && s.fetchCmdID == 0
    requires var (id, start, n) := (es[0].a.input.id, es[0].a.now, |es|);
      && id != 0 && LabelMatches(ss[0].fetchCmd, es[0].a.input.name)
      && (forall j :: 2 <= j < n - 2 ==> Spares(es[j], id, start))
      && es[n - 2].Recv? && es[n - 2].a.input == End(id) && es[n - 2].a.now - start <= 60_000_000_000
      && !es[n - 1].GiveUp?
    ensures var t := ss[|es|];
      && t.fetchCh == None
      && exists r :: r in t.results && r.dest == Fetched(f) && r.birth == |ss[0].arrivals| && r.id == es[0].a.input.id
  {
    var n, a := |es|, es[0].a;
    var id, start, b := a.input.id, a.now, |ss[0].arrivals|;
    BeginPins(ss[0], a, f);
    assert Enabled(ss[0], es[0]) && ss[0 + 1] == Step(ss[0], es[0]);
    assert Enabled(ss[1], es[1]) && ss[1 + 1] == Step(ss[1], es[1]);
    assert es[1] == Pin;
    WaitingThrough(ss, es, 2, n - 2, f, id, b, start);
    assert Enabled(ss[n - 2], es[n - 2]) && ss[n - 2 + 1] == Step(ss[n - 2], es[n - 2]);
    assert Enabled(ss[n - 1], es[n - 1]) && ss[n - 1 + 1] == Step(ss[n - 1], es[n - 1]);
    hide Step, Waiting, LabelMatches, Path, Spares;
    EndAnswers(ss[n - 2], es[n - 2].a, f, b, start);
    assert es[n - 1] == Route;
  }

  // ------------------------------------------------------------- what the assumptions are for

  lemma Hop(s: State, e: Event, t: State)
    requires Enabled(s, e) && t == Step(s, e)
    ensures Next(s, t)
    ensures e.Recv? ==> t.arrivals == s.arrivals + [e.a]
    ensures e.Recv? ==> t.pc == match e.a.input
              case Begin(id, name) => Pinning(id, name)
              case End(id) => if id in Flushed(s, e.a.now).bufs then Routing(id, Flushed(s, e.a.now).bufs[id]) else Idle
              case _ => Idle
    ensures e.Pin? || e.Route? ==> t.pc == Idle && t.arrivals == s.arrivals
  {
    if e.Recv? {
      PcAfter(s, e.a);
      ArrivalsAfter(s, e.a);
    }
    hide Received;
  }

  const WHO := Arrival(Begin(1, "/who"), 0)
  const LINE := Arrival(Raw(Tagged(1, "x")), 0)
  const AGAIN := Arrival(Begin(1, "/what"), 0)

  lemma ReusingRun() returns (trace: seq<State>)
    ensures Run(trace) && |trace| == 5 && trace[4].arrivals == [WHO, LINE, AGAIN]
  {
    hide Received, PinnedBy;
    var s1 := Step(INITIAL, Recv(WHO));
    Hop(INITIAL, Recv(WHO), s1);
    var s2 := Step(s1, Pin);
    Hop(s1, Pin, s2);
    var s3 := Step(s2, Recv(LINE));
    Hop(s2, Recv(LINE), s3);
    var s4 := Step(s3, Recv(AGAIN));
    Hop(s3, Recv(AGAIN), s4);
    trace := [INITIAL, s1, s2, s3, s4];
    assert s4.arrivals == [] + [WHO] + [LINE] + [AGAIN];
  }

  lemma LineIsTagged()
    ensures LINE.input.Raw? && IsTagged(LINE.input.text, 1, "x")
  {
    TaggedRoundTrip(1, "x");
    SplitIff(Tagged(1, "x"), 1, "x");
    hide IsTagged, Tagged, SplitCommandPrefix;
  }

  lemma WhoIsOpen(arr: seq<Arrival>, i: nat)
    requires 1 <= i < |arr| && i <= 2 && arr[..i] == [WHO, LINE][..i] && arr[i].now == 0
    ensures BracketBefore(arr, i, 1, 0)
    ensures i == 1 && arr[1] == LINE ==> Owner(arr, 1) == Some(0)
    ensures 1 in OpenBefore(arr, i) && OpenBefore(arr, i)[1] == 0
  {
    hide OpenAt, OpenBefore, Owner;
    assert arr[0] == arr[..i][0] == WHO;
    TableIsBrackets(arr, i);
    if i == 1 && arr[1] == LINE {
      LineIsTagged();
      hide IsTagged, Tagged;
      assert Addressed(arr, 1, 1);
      OwnerIsByBracket(arr, 1, 0);
    }
  }

  /** Without care about ids: a %begin that reuses an open id drops what was collected. */
  lemma ReusedIdLosesLines()
    ensures exists trace: seq<State>, i: nat :: Run(trace) && |trace| == 5
              && i < |trace[4].arrivals| && trace[4].arrivals[i].input.Raw?
              && Owner(trace[4].arrivals, i) == Some(0) && !Kept(trace[4], 0)
  {
    hide OpenAt, OpenBefore, Owner, Lost, Run, Kept;
    var trace := ReusingRun();
    var arr := trace[4].arrivals;
    WhoIsOpen(arr, 1);
    WhoIsOpen(arr, 2);
    assert arr == [WHO, LINE] + [AGAIN] && 0 in Lost(arr) by { LostGrow([WHO, LINE], AGAIN); }
    assert FatesOk(trace[4]) by { RunKeepsInv(trace, 4); }
    assert IsCommand(trace[4], 0);
    assert arr[1].input.Raw?;
  }

  // ------------------------------------------------------------- the session object

  /** fanOut handling one message with nobody in between. */
  ghost function Settled(s: State): State {
    if s.pc.Pinning? && s.arrivals != [] then PinnedBy(s)
    else if s.pc.Routing? then Routed(s)
    else s
  }

  /** A command begins, and may be pinned. */
  function Begun(s: State, id: int, name: string, now: int, birth: nat): State {
    var t := s.(bufs := s.bufs[id := Capture([], now, birth)]);
    if s.fetchCh.Some? && s.fetchCmdID == 0 && LabelMatches(s.fetchCmd, name)
    then t.(fetchCmdID := id, claims := s.claims[s.fetchCh.value := birth]) else t
  }

  /** A command ends, and its output is sent on. */
  function Ended(s: State, id: int): State {
    if id !in s.bufs then s
    else
      var (c, t) := (s.bufs[id], s.(bufs := s.bufs - {id}));
      if s.fetchCh.Some? && id == s.fetchCmdID then
        t.(results := s.results + {Result(c.birth, id, c.lines, Fetched(s.fetchCh.value))},
           fetchCh := None, fetchCmdID := 0)
      else t.(results := s.results + {Result(c.birth, id, c.lines, Published)})
  }

  lemma SettledBegin(f: State, a: Arrival)
    requires f.pc == Idle && a.input.Begin?
    ensures Settled(Handled(f, a, |f.arrivals|).(arrivals := f.arrivals + [a]))
              == Begun(f, a.input.id, a.input.name, a.now, |f.arrivals|).(arrivals := f.arrivals + [a])
  {
    hide LabelMatches;
  }

  lemma SettledEnd(f: State, a: Arrival)
    requires f.pc == Idle && a.input.End?
    ensures Settled(Handled(f, a, |f.arrivals|).(arrivals := f.arrivals + [a]))
              == Ended(f, a.input.id).(arrivals := f.arrivals + [a])
  {
  }

  lemma SettledRaw(f: State, a: Arrival)
    requires f.pc == Idle && a.input.Raw?
    ensures Settled(Handled(f, a, |f.arrivals|).(arrivals := f.arrivals + [a]))
              == Handled(f, a, |f.arrivals|).(arrivals := f.arrivals + [a])
  {
    hide SplitCommandPrefix;
  }

  lemma SettledIs(s: State, a: Arrival)
    requires s.pc == Idle
    ensures var (f, b) := (Flushed(s, a.now), |s.arrivals|);
      Settled(Received(s, a)) == (match a.input
        case Begin(id, name) => Begun(f, id, name, a.now, b)
        case End(id) => Ended(f, id)
        case Raw(_) => Handled(f, a, b)
        case Other => f).(arrivals := s.arrivals + [a])
  {
    FlushedRest(s, a.now);
    var f := Flushed(s, a.now);
    hide LabelMatches, SplitCommandPrefix, Flushed, Begun, Ended;
    match a.input {
      case Begin(_, _) =>
        hide Handled, Settled;
        SettledBegin(f, a);
      case End(_) =>
        hide Handled, Settled;
        SettledEnd(f, a);
      case Raw(_) =>
        hide Handled, Settled;
        SettledRaw(f, a);
      case Other =>
    }
  }

  lemma FlushedRest(s: State, now: int)
    ensures Flushed(s, now).pc == s.pc && Flushed(s, now).arrivals == s.arrivals
  {
  }

  /** The part of a session fanOut works on. What it publishes is collected in results and
      texts; a capture carries the index of its %begin so that it can be told apart. */
  class Demux {
    var cmdBuffer: map<int, Capture>
    var fetchResultCh: Option<nat>
    var fetchCmdID: int
    var fetchCmd: string
    var results: set<Result>
    var texts: seq<string>
    var received: nat
    ghost var arrivals: seq<Arrival>
    ghost var armed: map<nat, string>
    ghost var claims: map<nat, nat>

    ghost function View(): State
      reads this
    {
      State(arrivals, cmdBuffer, fetchResultCh, fetchCmdID, fetchCmd, Idle, results, texts, armed, claims)
    }

    constructor ()
      ensures View() == INITIAL && received == 0
    {
      cmdBuffer, fetchResultCh, fetchCmdID, fetchCmd := map[], None, 0, "";
      results, texts, received, arrivals, armed, claims := {}, [], 0, [], map[], map[];
    }

    method FlushStaleCaptures(now: int)
      modifies this`cmdBuffer, this`results
      ensures View() == Flushed(old(View()), now)
    {
      var todo := cmdBuffer.Keys;
      ghost var all := cmdBuffer;
      ghost var before := results;
      var kept: map<int, Capture> := map[];
      while |todo| > 0
        invariant todo <= all.Keys
        invariant cmdBuffer == all && results == before + set id | id in all && id !in todo && Stale(all[id], now) ::
                    Result(all[id].birth, id, all[id].lines, Published)
        invariant kept == map id | id in all && id !in todo && !Stale(all[id], now) :: all[id]
        decreases |todo|
      {
        Sets.Inhabited(todo);
        var id :| id in todo;
        var buf := cmdBuffer[id];
        if now - buf.started > MAX_AGE {
          results := results + {Result(buf.birth, id, buf.lines, Published)};
        } else {
          kept := kept[id := buf];
        }
        todo := todo - {id};
      }
      cmdBuffer := kept;
      assert forall id :: id in all ==> id !in todo;
    }

    /** The end of the loop body for a raw line. */
    method HandleRaw(text: string)
      modifies this`cmdBuffer, this`texts
      ensures forall a: Arrival, b: nat :: a.input == Raw(text) ==> View() == Handled(old(View()), a, b)
    {
      var split := SplitCommandPrefix(text);
      if split.Some? {
        var (id, rest) := split.value;
        if id in cmdBuffer {
          cmdBuffer := cmdBuffer[id := cmdBuffer[id].(lines := cmdBuffer[id].lines + [rest])];
        } else {
          texts := texts + [rest];
        }
      } else if |cmdBuffer| == 1 {
        var ids := cmdBuffer.Keys;
        assert |ids| == |cmdBuffer|;
        Sets.Inhabited(ids);
        var id :| id in ids;
        assert id == Sole(ids);
        cmdBuffer := cmdBuffer[id := cmdBuffer[id].(lines := cmdBuffer[id].lines + [text])];
      } else {
        texts := texts + [text];
      }
    }

    /** A %begin: a fresh capture, which a fetch that waits for such a label pins. */
    method BeginCommand(id: int, name: string, now: int)
      modifies this`cmdBuffer, this`fetchCmdID, this`claims
      ensures View() == Begun(old(View()), id, name, now, received)
    {
      cmdBuffer := cmdBuffer[id := Capture([], now, received)];
      if fetchResultCh.Some? && fetchCmdID == 0 && LabelMatches(fetchCmd, name) {
        fetchCmdID := id;
        claims := claims[fetchResultCh.value := received];
      }
    }

    /** An %end: the capture goes to the fetch that pinned it, or to the clients. */
    method EndCommand(id: int)
      modifies this`cmdBuffer, this`fetchResultCh, this`fetchCmdID, this`results
      ensures View() == Ended(old(View()), id)
    {
      if id in cmdBuffer {
        var buf := cmdBuffer[id];
        cmdBuffer := cmdBuffer - {id};
        if fetchResultCh.Some? && id == fetchCmdID {
          results := results + {Result(buf.birth, id, buf.lines, Fetched(fetchResultCh.value))};
          fetchResultCh := None;
          fetchCmdID := 0;
        } else {
          results := results + {Result(buf.birth, id, buf.lines, Published)};
        }
      }
    }

    method OnMessage(a: Arrival)
      requires received == |arrivals|
      modifies this
      ensures View() == Settled(Received(old(View()), a)) && received == |arrivals|
    {
      SettledIs(View(), a);
      hide Settled, Received, Flushed, Handled, Begun, Ended;
      FlushStaleCaptures(a.now);
      match a.input {
        case Begin(id, name) => BeginCommand(id, name, a.now);
        case End(id) => EndCommand(id);
        case Raw(text) => HandleRaw(text);
        case Other =>
      }
      arrivals := arrivals + [a];
      received := received + 1;
    }

    /** fetchLines up to the send: only one fetch may be pending. */
    method ArmFetch(f: nat, cmd: string) returns (ok: bool)
      requires f !in armed
      modifies this
      ensures ok == old(fetchResultCh).None?
      ensures View() == if ok then Step(old(View()), Arm(f, cmd)) else old(View())
      ensures received == old(received)
    {
      if fetchResultCh.Some? {
        return false;
      }
      fetchResultCh, fetchCmdID, fetchCmd := Some(f), 0, cmd;
      armed := armed[f := cmd];
      return true;
    }

    method GiveUpFetch()
      modifies this
      ensures View() == Step(old(View()), GiveUp) && received == old(received)
    {
      fetchResultCh := None;
    }
  }
}
