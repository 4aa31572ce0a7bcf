/** The wire protocol (internal/slcp/parser.go) and the line printer the test server uses
    (internal/lilytest/fakelily.go). */
module Slcp {
  import opened Text

  datatype Result<+T> = Ok(value: T) | Err

  datatype MsgType =
    | MsgRaw | MsgOptions | MsgConnected | MsgPrompt | MsgNotify | MsgUser | MsgDisc | MsgGroup
    | MsgData | MsgServer | MsgSyncBegin | MsgSyncEnd | MsgCmdBegin | MsgCmdEnd
    | MsgLoginPrompt | MsgPassPrompt | MsgExportFile | MsgPong

  type Params = map<string, string>

  datatype Message = Message(kind: MsgType, raw: string, params: Params, cmdID: int, text: string)

  function Bare(kind: MsgType, raw: string, text: string): Message {
    Message(kind, raw, map[], 0, text)
  }

  // ------------------------------------------------------------- parameters

  predicate IsBlank(c: char) { c == ' ' }
  predicate IsKeyChar(c: char) { c != '=' && c != ' ' }
  predicate IsValueChar(c: char) { c != ' ' }

  /** After KEY=, does LEN= follow? */
  predicate LengthShaped(s: string) {
    var n := Span(s, IsDigit);
    0 < n < |s| && s[n] == '='
  }

  /** What one round of the cursor loop finds. */
  datatype Found = Done | Truncated | Found(key: string, value: string, rest: string)

  /** After KEY=: LEN=DATA if it starts with a length, else the value up to the next blank. */
  function NextValue(key: string, rest: string): (f: Found)
    ensures f.Found? ==> |f.rest| <= |rest|
  {
    if LengthShaped(rest) then
      var n := Span(rest, IsDigit);
      var length := Number(rest[..n]);
      var data := rest[n + 1..];
      if length > |data| then Truncated else Found(key, data[..length], data[length..])
    else
      var v := Span(rest, IsValueChar);
      Found(key, rest[..v], rest[v..])
  }

  function NextKeyed(t: string): (f: Found)
    ensures f.Found? ==> |f.rest| < |t|
  {
    var k := Span(t, IsKeyChar);
    if k == 0 then Done
    else if k == |t| || t[k] == ' ' then Found(t[..k], "1", t[k..])
    else NextValue(t[..k], t[k + 1..])
  }

  function NextParam(s: string): Found {
    NextKeyed(s[Span(s, IsBlank)..])
  }

  /** The parameters of s on top of those already read. */
  function ParamsFrom(s: string, acc: Params): Result<Params>
    decreases |s|
  {
    match NextParam(s)
    case Done => Ok(acc)
    case Truncated => Err
    case Found(k, v, rest) => ParamsFrom(rest, acc[k := v])
  }

  lemma Advance(s: string, acc: Params)
    ensures ParamsFrom(s, acc) == match NextParam(s)
              case Done => Ok(acc)
              case Truncated => Err
              case Found(k, v, rest) => ParamsFrom(rest, acc[k := v])
  {
  }

  /** The cursor loop's inner scans, on s from pos. */
  method Scan(s: string, pos: nat, p: char -> bool) returns (end: nat)
    requires pos <= |s|
    ensures pos <= end <= |s| && end - pos == Span(s[pos..], p)
  {
    end := pos;
    while end < |s| && p(s[end])
      invariant pos <= end <= |s| && forall i :: pos <= i < end ==> p(s[i])
    {
      end := end + 1;
    }
    SpanIs(s[pos..], p, end - pos);
  }

  /** The value whose key ended with '=' just before pos; next is where the cursor stops. */
  method ReadValue(s: string, pos: nat, ghost key: string) returns (value: Option<string>, next: nat)
    requires pos <= |s|
    ensures pos <= next <= |s|
    ensures NextValue(key, s[pos..]) == if value.None? then Truncated else Found(key, value.value, s[next..])
  {
    hide Span, Number, NextValue;
    var numEnd := Scan(s, pos, IsDigit);
    if numEnd > pos && numEnd < |s| && s[numEnd] == '=' {
      CountedValue(s, pos, key, numEnd);
      var length := Number(s[pos..numEnd]);
      next := numEnd + 1;
      if next + length > |s| {
        return None, next;
      }
      value := Some(s[next..next + length]);
      next := next + length;
    } else {
      next := Scan(s, pos, IsValueChar);
      PlainValue(s, pos, key, next);
      value := Some(s[pos..next]);
    }
  }

  lemma CountedValue(s: string, pos: nat, key: string, numEnd: nat)
    requires pos < numEnd < |s| && s[numEnd] == '=' && numEnd - pos == Span(s[pos..], IsDigit)
    ensures var start, length := numEnd + 1, Number(s[pos..numEnd]);
            NextValue(key, s[pos..]) ==
              if start + length > |s| then Truncated else Found(key, s[start..start + length], s[start + length..])
  {
    hide Span, Number;
    var rest, start, length := s[pos..], numEnd + 1, Number(s[pos..numEnd]);
    assert s[pos..numEnd] == rest[..numEnd - pos];
    var data := rest[numEnd - pos + 1..];
    assert data == s[start..];
    if start + length <= |s| {
      assert s[start..start + length] == data[..length] && s[start + length..] == data[length..];
    }
  }

  lemma PlainValue(s: string, pos: nat, key: string, end: nat)
    requires pos <= end <= |s| && !LengthShaped(s[pos..]) && end - pos == Span(s[pos..], IsValueChar)
    ensures NextValue(key, s[pos..]) == Found(key, s[pos..end], s[end..])
  {
    hide Span, LengthShaped;
    assert s[pos..end] == s[pos..][..end - pos] && s[end..] == s[pos..][end - pos..];
  }

  /** The next key, empty at the end of the string or at a stray '='. */
  method ReadKey(s: string, pos: nat) returns (key: string, next: nat)
    requires pos <= |s|
    ensures pos <= next <= |s| && (key != "" ==> pos < next)
    ensures NextParam(s[pos..]) ==
              if key == "" then Done
              else if next == |s| || s[next] == ' ' then Found(key, "1", s[next..])
              else NextValue(key, s[next + 1..])
  {
    hide Span, NextValue;
    var keyStart := Scan(s, pos, IsBlank);
    ghost var t := s[keyStart..];
    assert t == s[pos..][keyStart - pos..];
    next := Scan(s, keyStart, IsKeyChar);
    key := s[keyStart..next];
    assert key == t[..next - keyStart] && t[next - keyStart..] == s[next..];
    if next < |s| {
      assert s[next + 1..] == t[next - keyStart + 1..];
    }
  }

  method ParseParams(s: string) returns (r: Result<Params>)
    ensures r == ParamsFrom(s, map[])
  {
    hide Span, ParamsFrom, NextValue, NextParam;
    var params: Params := map[];
    var pos := 0;
    assert s[0..] == s;
    while pos < |s|
      invariant pos <= |s|
      invariant ParamsFrom(s[pos..], params) == ParamsFrom(s, map[])
      decreases |s| - pos
    {
      Advance(s[pos..], params);
      var key, next := ReadKey(s, pos);
      if key == "" {
        return Ok(params);
      }
      if next >= |s| || s[next] == ' ' {
        params := params[key := "1"];
        pos := next;
        continue;
      }
      var value;
      value, pos := ReadValue(s, next + 1, key);
      if value.None? {
        return Err;
      }
      params := params[key := value.value];
    }
    assert s[pos..] == "";
    EmptyEnds(params);
    return Ok(params);
  }

  lemma EmptyEnds(acc: Params)
    ensures ParamsFrom("", acc) == Ok(acc)
  {
  }

  predicate KeyOk(k: string) {
    k != "" && '=' !in k && ' ' !in k
  }

  /** KEY=LEN=DATA. */
  function PrintParam(k: string, v: string): string {
    k + "=" + Decimal(|v|) + "=" + v
  }

  function PrintParams(kvs: seq<(string, string)>): string {
    if kvs == [] then "" else
      PrintParam(kvs[0].0, kvs[0].1) + (if |kvs| == 1 then "" else " " + PrintParams(kvs[1..]))
  }

  function Assigned(acc: Params, kvs: seq<(string, string)>): Params
    decreases |kvs|
  {
    if kvs == [] then acc else Assigned(acc[kvs[0].0 := kvs[0].1], kvs[1..])
  }

  /** One key up to its '='. */
  lemma KeyStep(k: string, rest: string)
    requires KeyOk(k)
    ensures var s := k + "=" + rest;
            Span(s, IsBlank) == 0 && Span(s, IsKeyChar) == |k| && s[..|k|] == k && s[|k| + 1..] == rest
  {
    var s := k + "=" + rest;
    assert forall i :: 0 <= i < |k| ==> k[i] in k && s[i] == k[i];
    assert s[|k|] == '=';
    SpanIs(s, IsBlank, 0);
    SpanIs(s, IsKeyChar, |k|);
  }

  lemma NextAfterKey(k: string, rest: string)
    requires KeyOk(k)
    ensures NextParam(k + "=" + rest) == NextValue(k, rest)
  {
    var s := k + "=" + rest;
    KeyStep(k, rest);
    assert s[0..] == s && s[|k|] == '=';
  }

  lemma LengthValue(k: string, digits: string, v: string, tail: string)
    requires AllDigits(digits) && Number(digits) == |v|
    ensures NextValue(k, digits + "=" + (v + tail)) == Found(k, v, tail)
  {
    var data := v + tail;
    var rest := digits + "=" + data;
    SpanIs(rest, IsDigit, |digits|);
    assert rest[..|digits|] == digits && rest[|digits|] == '=' && rest[|digits| + 1..] == data;
    assert data[..|v|] == v && data[|v|..] == tail;
  }

  /** A printed parameter is read back whatever its bytes, and the cursor is right after it. */
  lemma PrintedNext(k: string, v: string, tail: string)
    requires KeyOk(k)
    ensures NextParam(PrintParam(k, v) + tail) == Found(k, v, tail)
  {
    var digits := Decimal(|v|);
    var rest := digits + "=" + (v + tail);
    assert PrintParam(k, v) + tail == k + "=" + rest;
    NextAfterKey(k, rest);
    NumberOfDecimal(|v|);
    LengthValue(k, digits, v, tail);
  }

  lemma PrintedParam(k: string, v: string, tail: string, acc: Params)
    requires KeyOk(k)
    ensures ParamsFrom(PrintParam(k, v) + tail, acc) == ParamsFrom(tail, acc[k := v])
  {
    PrintedNext(k, v, tail);
  }

  lemma BlankNext(tail: string)
    ensures NextParam(" " + tail) == NextParam(tail)
  {
    hide NextKeyed;
    var s, n := " " + tail, Span(tail, IsBlank);
    assert s[0] == ' ' && s[1..] == tail;
    assert Span(s, IsBlank) == 1 + n;
    hide Span;
    assert s[1 + n..] == tail[n..];
  }

  lemma BlankStep(tail: string, acc: Params)
    ensures ParamsFrom(" " + tail, acc) == ParamsFrom(tail, acc)
  {
    BlankNext(tail);
  }

  /** Printed parameters are read, and reading goes on right behind them. */
  lemma {:induction false} PrintedParamsFrom(kvs: seq<(string, string)>, tail: string, acc: Params)
    requires forall i :: 0 <= i < |kvs| ==> KeyOk(kvs[i].0)
    ensures ParamsFrom(PrintParams(kvs) + tail, acc) == ParamsFrom(tail, Assigned(acc, kvs))
    decreases |kvs|
  {
    hide *;
    if kvs == [] {
      PrintedNone(tail, acc);
      return;
    }
    var k, v, more := kvs[0].0, kvs[0].1, PrintParams(kvs[1..]);
    AssignedOne(acc, kvs);
    if |kvs| == 1 {
      PrintedLast(kvs, acc);
      PrintedParam(k, v, tail, acc);
    } else {
      PrintedOne(kvs, tail);
      PrintedParam(k, v, " " + (more + tail), acc);
      BlankStep(more + tail, acc[k := v]);
      PrintedParamsFrom(kvs[1..], tail, acc[k := v]);
    }
  }

  lemma PrintedNone(tail: string, acc: Params)
    ensures PrintParams([]) + tail == tail && Assigned(acc, []) == acc
  {
  }

  lemma PrintedLast(kvs: seq<(string, string)>, acc: Params)
    requires |kvs| == 1
    ensures PrintParams(kvs) == PrintParam(kvs[0].0, kvs[0].1)
    ensures Assigned(acc, kvs) == acc[kvs[0].0 := kvs[0].1]
  {
    assert kvs[1..] == [];
  }

  lemma PrintedOne(kvs: seq<(string, string)>, tail: string)
    requires |kvs| > 1
    ensures PrintParams(kvs) + tail
              == PrintParam(kvs[0].0, kvs[0].1) + (" " + (PrintParams(kvs[1..]) + tail))
  {
    hide PrintParam;
  }

  lemma AssignedOne(acc: Params, kvs: seq<(string, string)>)
    requires kvs != []
    ensures Assigned(acc, kvs) == Assigned(acc[kvs[0].0 := kvs[0].1], kvs[1..])
  {
  }

  lemma {:induction false} AssignedIs(acc: Params, kvs: seq<(string, string)>)
    requires forall i, j :: 0 <= i < j < |kvs| ==> kvs[i].0 != kvs[j].0
    ensures Assigned(acc, kvs).Keys == acc.Keys + set i | 0 <= i < |kvs| :: kvs[i].0
    ensures forall i :: 0 <= i < |kvs| ==> Assigned(acc, kvs)[kvs[i].0] == kvs[i].1
    ensures forall k :: k in acc && (forall i :: 0 <= i < |kvs| ==> kvs[i].0 != k) ==> Assigned(acc, kvs)[k] == acc[k]
    decreases |kvs|
  {
    if kvs != [] {
      var acc', rest := acc[kvs[0].0 := kvs[0].1], kvs[1..];
      assert forall i :: 0 < i < |kvs| ==> rest[i - 1] == kvs[i];
      AssignedIs(acc', rest);
      assert acc'.Keys == acc.Keys + {kvs[0].0};
    }
  }

  /** Parsing undoes printing, for any keys a parameter may have and any bytes in the values, and
      takes in all of what was printed: whatever follows is read on top. */
  lemma ParamsRoundTrip(kvs: seq<(string, string)>, tail: string)
    requires forall i :: 0 <= i < |kvs| ==> KeyOk(kvs[i].0)
    requires forall i, j :: 0 <= i < j < |kvs| ==> kvs[i].0 != kvs[j].0
    ensures ParamsFrom(PrintParams(kvs), map[]).Ok?
    ensures var m := ParamsFrom(PrintParams(kvs), map[]).value;
            && (forall k :: k in m <==> exists i :: 0 <= i < |kvs| && kvs[i].0 == k)
            && (forall i :: 0 <= i < |kvs| ==> m[kvs[i].0] == kvs[i].1)
            && ParamsFrom(PrintParams(kvs) + tail, map[]) == ParamsFrom(tail, m)
  {
    PrintedParamsFrom(kvs, "", map[]);
    assert PrintParams(kvs) + "" == PrintParams(kvs);
    EmptyEnds(Assigned(map[], kvs));
    PrintedParamsFrom(kvs, tail, map[]);
    AssignedIs(map[], kvs);
  }

  /** Values the plain form KEY=VALUE can carry. */
  predicate PlainOk(v: string) {
    ' ' !in v && !LengthShaped(v)
  }

  lemma PlainRest(v: string, tail: string)
    requires PlainOk(v) && (tail != "" ==> tail[0] == ' ')
    ensures Span(v + tail, IsDigit) == Span(v, IsDigit) && Span(v + tail, IsValueChar) == |v|
    ensures (v + tail)[..|v|] == v && (v + tail)[|v|..] == tail
  {
    assert forall i :: 0 <= i < |v| ==> v[i] in v && (v + tail)[i] == v[i];
    SpanIs(v + tail, IsDigit, Span(v, IsDigit));
    SpanIs(v + tail, IsValueChar, |v|);
  }

  lemma PlainNext(k: string, v: string, tail: string)
    requires KeyOk(k) && PlainOk(v) && (tail != "" ==> tail[0] == ' ')
    ensures NextParam(k + "=" + v + tail) == Found(k, v, tail)
  {
    var rest := v + tail;
    assert k + "=" + v + tail == k + "=" + rest;
    NextAfterKey(k, rest);
    PlainRest(v, tail);
    hide Span, NextParam, KeyOk;
  }

  lemma PlainParam(k: string, v: string, tail: string, acc: Params)
    requires KeyOk(k) && PlainOk(v) && (tail != "" ==> tail[0] == ' ')
    ensures ParamsFrom(k + "=" + v + tail, acc) == ParamsFrom(tail, acc[k := v])
  {
    PlainNext(k, v, tail);
  }

  /** If the text from place d on repeats the text, up to its length, the character after it is one of
      the first d. */
  lemma {:induction false} Repeats(v: string, tail: string, d: nat, i: nat) returns (j: nat)
    requires 0 < d <= |v| && i < |v + tail| && i <= |v|
    requires forall x :: 0 <= x < |v| && x + d < |v + tail| ==> v[x] == (v + tail)[x + d]
    ensures j < d && v[j] == (v + tail)[i]
  {
    if i < d {
      return i;
    }
    j := Repeats(v, tail, d, i - d);
  }

  /** Before a blank, the plain form hands on the value exactly when it is one the form can carry. */
  lemma PlainNextIff(k: string, v: string, tail: string)
    requires KeyOk(k) && tail != "" && tail[0] == ' '
    ensures var f := NextParam(k + "=" + v + tail); f.Found? && f.key == k && f.value == v <==> PlainOk(v)
  {
    assert k + "=" + v + tail == k + "=" + (v + tail);
    if PlainOk(v) {
      PlainNext(k, v, tail);
    } else {
      NextAfterKey(k, v + tail);
      if LengthShaped(v) {
        CountedIsOther(k, v, tail);
      } else {
        BlankCutsShort(k, v, tail);
      }
    }
  }

  lemma BlankCutsShort(k: string, v: string, tail: string)
    requires !LengthShaped(v) && ' ' in v && tail != "" && tail[0] == ' '
    ensures NextValue(k, v + tail).Found? && |NextValue(k, v + tail).value| < |v|
  {
    var w, n := v + tail, Span(v, IsDigit);
    var i: nat :| i < |v| && v[i] == ' ';
    assert w[i] == ' ' && n < |v| && w[n] == v[n];
    assert forall x :: 0 <= x < n ==> w[x] == v[x];
    SpanIs(w, IsDigit, n);
  }

  lemma CountedIsOther(k: string, v: string, tail: string)
    requires LengthShaped(v) && tail != "" && tail[0] == ' '
    ensures var f := NextValue(k, v + tail); f.Found? ==> f.value != v
  {
    var w, n := v + tail, Span(v, IsDigit);
    assert forall i :: 0 <= i <= n ==> w[i] == v[i];
    SpanIs(w, IsDigit, n);
    assert w[0..] == w;
    CountedValue(w, 0, k, n);
    hide NextValue, Span, Number, LengthShaped;
    if n + 1 + |v| <= |w| {
      NotRepeated(v, tail, n + 1);
    }
  }

  /** Text that starts without a blank does not come again across the blank that follows it. */
  lemma NotRepeated(v: string, tail: string, d: nat)
    requires 0 < d <= |v| && d + |v| <= |v + tail| && tail != "" && tail[0] == ' '
    requires forall i :: 0 <= i < d ==> v[i] != ' '
    ensures (v + tail)[d..d + |v|] != v
  {
    var w := v + tail;
    if w[d..d + |v|] == v {
      forall x | 0 <= x < |v| && x + d < |w| ensures v[x] == w[x + d] {
        assert w[d..d + |v|][x] == w[x + d];
      }
      var j := Repeats(v, tail, d, |v|);
    }
  }

  /** Whatever a string assigns is a flag or shorter than the string. */
  lemma {:induction false} ValuesAreShort(s: string, acc: Params, k: string)
    requires k in acc && ParamsFrom(s, acc).Ok?
    ensures k in ParamsFrom(s, acc).value
    ensures var v := ParamsFrom(s, acc).value[k]; v == acc[k] || v == "1" || |v| < |s|
    decreases |s|
  {
    match NextParam(s)
    case Found(key, v, rest) => ValuesAreShort(rest, acc[key := v], k);
    case _ =>
  }

  /** The plain form is read back exactly when its value has no blank and does not start like
      a length: "3=abc" is taken for three bytes of data. */
  lemma PlainRoundTrip(k: string, v: string)
    requires KeyOk(k)
    ensures ParamsFrom(k + "=" + v, map[]) == Ok(map[k := v]) <==> PlainOk(v)
  {
    NextAfterKey(k, v);
    Advance(k + "=" + v, map[]);
    if PlainOk(v) {
      assert k + "=" + v + "" == k + "=" + v;
      PlainParam(k, v, "", map[]);
      EmptyEnds(map[k := v]);
    } else {
      var f := NextValue(k, v);
      if f.Found? && ParamsFrom(f.rest, map[k := f.value]).Ok? {
        BadValueIsShort(k, v);
        ValuesAreShort(f.rest, map[k := f.value], k);
      }
    }
  }

  lemma BadValueIsShort(k: string, v: string)
    requires !PlainOk(v) && NextValue(k, v).Found?
    ensures |NextValue(k, v).value| < |v| && v != "1"
  {
  }

  /** A length past the end of the string is an error, and a stray '=' ends the reading. */
  lemma TruncatedIsError(k: string, digits: string, data: string, acc: Params)
    requires KeyOk(k) && IsDigits(digits) && ByPlace(digits) > |data|
    ensures ParamsFrom(k + "=" + (digits + "=" + data), acc) == Err
    ensures ParamsFrom("=" + data, acc) == Ok(acc)
  {
    var rest := digits + "=" + data;
    NextAfterKey(k, rest);
    NumberIsByPlace(digits);
    SpanIs(rest, IsDigit, |digits|);
    assert rest[..|digits|] == digits && rest[|digits|] == '=' && rest[|digits| + 1..] == data;
    StrayNext(data);
    hide Number, ByPlace;
  }

  lemma StrayNext(data: string)
    ensures NextParam("=" + data) == Done
  {
    SpanIs("=" + data, IsBlank, 0);
    SpanIs("=" + data, IsKeyChar, 0);
    assert ("=" + data)[0..] == "=" + data;
  }

  // ------------------------------------------------------------- events

  datatype NotifyEvent = NotifyEvent(
    event: string, source: string, time: int, value: string,
    recips: seq<string>, targets: seq<string>, subEvt: string,
    empty: bool, notify: bool, stamp: bool)

  function Get(p: Params, k: string): string {
    if k in p then p[k] else ""
  }

  function HandleList(v: string): seq<string> {
    if v == "" then [] else Split(v, ',')
  }

  function ParseNotify(m: Message): Result<NotifyEvent> {
    if m.kind != MsgNotify then Err
    else
      var p := m.params;
      var event := Lower(Get(p, "EVENT"));
      var time := match Atoi(Get(p, "TIME")) case Some(n) => n case None => 0;
      Ok(NotifyEvent(
           event, Get(p, "SOURCE"), time, Get(p, "VALUE"),
           HandleList(Get(p, "RECIPS")), HandleList(Get(p, "TARGETS")), Get(p, "SUBEVT"),
           "EMPTY" in p, Get(p, "NOTIFY") == "1" || event in {"emote", "public", "private"},
           Get(p, "STAMP") == "1"))
  }

  /** A NOTIFY message announces itself when it says so, and always when it is an emote, a public or a
      private message, however that is written. */
  lemma NotifyFlagIff(m: Message)
    requires m.kind == MsgNotify
    ensures ParseNotify(m).Ok?
    ensures ParseNotify(m).value.notify <==>
              || ("NOTIFY" in m.params && m.params["NOTIFY"] == "1")
              || ("EVENT" in m.params
                  && exists e :: e in {"emote", "public", "private"} && SameBarCase(m.params["EVENT"], e))
  {
    var event := Get(m.params, "EVENT");
    assert Lower("emote") == "emote" && Lower("public") == "public" && Lower("private") == "private";
    LowerIsFolding(event, "emote");
    LowerIsFolding(event, "public");
    LowerIsFolding(event, "private");
    if "EVENT" !in m.params { assert Lower(event) == ""; }
    hide Lower, Atoi, HandleList, SameBarCase;
  }

  function WithParams(raw: string, kind: MsgType): Result<Message> {
    match ParamsFrom(raw, map[])
    case Err => Err
    case Ok(params) => Ok(Message(kind, raw, params, 0, ""))
  }

  /** %begin [42] /cmd and %end [42]; p is the line up to and with its '['. */
  function CmdBound(line: string, p: string, kind: MsgType): Result<Message>
    requires p <= line
  {
    var rest := line[|p|..];
    match Index(rest, "]")
    case None => Err
    case Some(end) =>
      match Atoi(rest[..end])
      case None => Err
      case Some(id) => Ok(Message(kind, line, map[], id, Trim(rest[end + 1..])))
  }

  function Parse(line: string): Result<Message> {
    if line == "login:" then Ok(Bare(MsgLoginPrompt, line, ""))
    else if line == "password:" then Ok(Bare(MsgPassPrompt, line, ""))
    else if "%connected " <= line then Ok(Bare(MsgConnected, line, ""))
    else if line == "%pong" then Ok(Bare(MsgPong, line, ""))
    else if "%SLCP-SYNC " <= line then
      Ok(Bare(if "end" <= Lower(Trim(line[11..])) then MsgSyncEnd else MsgSyncBegin, line, ""))
    else if "%prompt " <= line then Ok(Bare(MsgPrompt, line, line[8..]))
    else if "%begin [" <= line then CmdBound(line, "%begin [", MsgCmdBegin)
    else if "%end [" <= line then CmdBound(line, "%end [", MsgCmdEnd)
    else if "%options " <= line then Ok(Bare(MsgOptions, line, line[9..]))
    else if "%export_file " <= line then Ok(Bare(MsgExportFile, line, line[13..]))
    else if "%NOTIFY " <= line then WithParams(line[8..], MsgNotify)
    else if "%USER " <= line then WithParams(line[6..], MsgUser)
    else if "%DISC " <= line then WithParams(line[6..], MsgDisc)
    else if "%GROUP " <= line then WithParams(line[7..], MsgGroup)
    else if "%DATA " <= line then WithParams(line[6..], MsgData)
    else if "%server " <= line then WithParams(line[8..], MsgServer)
    else Ok(Bare(MsgRaw, line, line))
  }

  function Field(k: string, v: string): string {
    k + "=" + v
  }

  /** What NotifyLine prints after the type token, from its end forwards. */
  function NotifyTail(value: string): string {
    " " + (PrintParam("VALUE", value) + " NOTIFY")
  }

  function NotifyThird(recips: seq<string>, value: string): string {
    if recips == [] then NotifyTail(value) else " " + (Field("RECIPS", Join(recips, ",")) + NotifyTail(value))
  }

  function NotifyBody(event: string, source: string, recips: seq<string>, value: string): string {
    Field("EVENT", event) + (" " + (Field("SOURCE", source) + NotifyThird(recips, value)))
  }

  method NotifyLine(event: string, source: string, recips: seq<string>, value: string) returns (line: string)
    ensures line == "%NOTIFY " + NotifyBody(event, source, recips, value)
  {
    var b := Field("EVENT", event) + " " + Field("SOURCE", source);
    if |recips| > 0 {
      b := b + " " + Field("RECIPS", Join(recips, ","));
    }
    b := b + " " + PrintParam("VALUE", value) + " NOTIFY";
    assert b == NotifyBody(event, source, recips, value) by {
      hide Field, PrintParam;
      Regroup(Field("EVENT", event), " ", Field("SOURCE", source), Field("RECIPS", Join(recips, ",")),
              PrintParam("VALUE", value), " NOTIFY");
    }
    line := "%NOTIFY " + b;
  }

  lemma Regroup(a: string, blank: string, b: string, c: string, d: string, e: string)
    ensures a + blank + b + blank + d + e == a + (blank + (b + (blank + (d + e))))
    ensures a + blank + b + (blank + c) + blank + d + e == a + (blank + (b + (blank + (c + (blank + (d + e))))))
    ensures a + blank + b + blank + c + blank + d + e == a + (blank + (b + (blank + (c + (blank + (d + e))))))
  {
  }

  lemma BlankPlain(k: string, v: string, tail: string, acc: Params)
    requires KeyOk(k) && PlainOk(v) && (tail != "" ==> tail[0] == ' ')
    ensures ParamsFrom(" " + (Field(k, v) + tail), acc) == ParamsFrom(tail, acc[k := v])
  {
    BlankStep(k + "=" + v + tail, acc);
    PlainParam(k, v, tail, acc);
  }

  lemma FlagParam(k: string, acc: Params)
    requires KeyOk(k)
    ensures ParamsFrom(" " + k, acc) == Ok(acc[k := "1"])
  {
    FlagNext(k);
    Advance(" " + k, acc);
    EmptyEnds(acc[k := "1"]);
  }

  lemma LengthThenFlag(k: string, value: string, flag: string, acc: Params)
    requires KeyOk(k) && KeyOk(flag)
    ensures ParamsFrom(" " + (PrintParam(k, value) + (" " + flag)), acc) == Ok(acc[k := value][flag := "1"])
  {
    BlankStep(PrintParam(k, value) + (" " + flag), acc);
    PrintedParam(k, value, " " + flag, acc);
    FlagParam(flag, acc[k := value]);
  }

  lemma KeysOk()
    ensures KeyOk("EVENT") && KeyOk("SOURCE") && KeyOk("RECIPS") && KeyOk("VALUE") && KeyOk("NOTIFY")
    ensures " NOTIFY" == " " + "NOTIFY"
  {
  }

  lemma NotifyTailParams(value: string, acc: Params)
    ensures ParamsFrom(NotifyTail(value), acc) == Ok(acc["VALUE" := value]["NOTIFY" := "1"])
  {
    KeysOk();
    LengthThenFlag("VALUE", value, "NOTIFY", acc);
  }

  function NotifyParams(event: string, source: string, recips: seq<string>, value: string): Params {
    var head := map["EVENT" := event, "SOURCE" := source];
    (if recips == [] then head else head["RECIPS" := Join(recips, ",")])["VALUE" := value]["NOTIFY" := "1"]
  }

  lemma NotifyThirdParams(recips: seq<string>, value: string, acc: Params)
    requires PlainOk(Join(recips, ","))
    ensures ParamsFrom(NotifyThird(recips, value), acc)
              == Ok((if recips == [] then acc else acc["RECIPS" := Join(recips, ",")])
                      ["VALUE" := value]["NOTIFY" := "1"])
  {
    if recips == [] {
      NotifyTailParams(value, acc);
    } else {
      KeysOk();
      BlankPlain("RECIPS", Join(recips, ","), NotifyTail(value), acc);
      NotifyTailParams(value, acc["RECIPS" := Join(recips, ",")]);
    }
  }

  lemma NotifyBodyParams(event: string, source: string, recips: seq<string>, value: string)
    requires PlainOk(event) && PlainOk(source) && PlainOk(Join(recips, ","))
    ensures ParamsFrom(NotifyBody(event, source, recips, value), map[])
              == Ok(NotifyParams(event, source, recips, value))
  {
    hide ParamsFrom;
    KeysOk();
    var third := NotifyThird(recips, value);
    assert third[0] == ' ';
    var m1: Params := map["EVENT" := event];
    PlainParam("EVENT", event, " " + (Field("SOURCE", source) + third), map[]);
    assert map[]["EVENT" := event] == m1;
    BlankPlain("SOURCE", source, third, m1);
    NotifyThirdParams(recips, value, m1["SOURCE" := source]);
  }

  /** What the cursor loop finds, one parameter after another. */
  function Readings(s: string): seq<(string, string)>
    decreases |s|
  {
    match NextParam(s)
    case Found(k, v, rest) => [(k, v)] + Readings(rest)
    case _ => []
  }

  lemma {:induction false} ReadingsAssign(s: string, acc: Params)
    requires ParamsFrom(s, acc).Ok?
    ensures ParamsFrom(s, acc).value == Assigned(acc, Readings(s))
    decreases |s|
  {
    match NextParam(s)
    case Found(k, v, rest) =>
      ReadingsAssign(rest, acc[k := v]);
      assert Readings(s)[1..] == Readings(rest);
    case _ =>
  }

  lemma PlainReads(k: string, v: string, tail: string, more: seq<(string, string)>)
    requires KeyOk(k) && tail != "" && tail[0] == ' '
    ensures Readings(" " + (Field(k, v) + tail)) == [(k, v)] + more <==> PlainOk(v) && Readings(tail) == more
    ensures Readings(Field(k, v) + tail) == [(k, v)] + more <==> PlainOk(v) && Readings(tail) == more
  {
    BlankNext(Field(k, v) + tail);
    PlainNextIff(k, v, tail);
    if PlainOk(v) { PlainNext(k, v, tail); }
    ReadingsStep(Field(k, v) + tail, k, v, more);
    ReadingsStep(" " + (Field(k, v) + tail), k, v, more);
    hide NextParam, PlainOk, KeyOk, Readings;
  }

  lemma ReadingsStep(s: string, k: string, v: string, more: seq<(string, string)>)
    ensures Readings(s) == [(k, v)] + more <==>
              var f := NextParam(s); f.Found? && f.key == k && f.value == v && Readings(f.rest) == more
  {
    hide NextParam;
    if Readings(s) == [(k, v)] + more && NextParam(s).Found? {
      assert ([(k, v)] + more)[1..] == more && Readings(s)[1..] == Readings(NextParam(s).rest);
      assert Readings(s)[0] == (k, v);
    }
  }

  /** What ought to be read of a NOTIFY line. */
  function NotifyReadings(event: string, source: string, recips: seq<string>, value: string): seq<(string, string)> {
    [("EVENT", event)] + ([("SOURCE", source)] + RecipsReadings(recips, value))
  }

  function RecipsReadings(recips: seq<string>, value: string): seq<(string, string)> {
    (if recips == [] then [] else [("RECIPS", Join(recips, ","))]) + [("VALUE", value), ("NOTIFY", "1")]
  }

  lemma TailReadings(value: string)
    ensures Readings(NotifyTail(value)) == [("VALUE", value), ("NOTIFY", "1")]
  {
    hide *;
    var flag := [("NOTIFY", "1")];
    KeysOk();
    NothingRead();
    FlagNext("NOTIFY");
    ReadingsStep(" NOTIFY", "NOTIFY", "1", []);
    assert flag + [] == flag;
    BlankNext(PrintParam("VALUE", value) + " NOTIFY");
    PrintedNext("VALUE", value, " NOTIFY");
    NotifyTailIs(value);
    ReadingsStep(NotifyTail(value), "VALUE", value, flag);
    assert [("VALUE", value)] + flag == [("VALUE", value), ("NOTIFY", "1")];
  }

  lemma NothingRead()
    ensures Readings("") == []
  {
  }

  lemma NotifyTailIs(value: string)
    ensures NotifyTail(value) == " " + (PrintParam("VALUE", value) + " NOTIFY")
  {
  }

  lemma FlagNext(k: string)
    requires KeyOk(k)
    ensures NextParam(" " + k) == Found(k, "1", "")
  {
    BlankNext(k);
    assert forall i :: 0 <= i < |k| ==> k[i] in k;
    SpanIs(k, IsBlank, 0);
    SpanIs(k, IsKeyChar, |k|);
    assert k[..|k|] == k && k[|k|..] == "" && k[0..] == k;
  }

  lemma ThirdReadings(recips: seq<string>, value: string)
    ensures (Readings(NotifyThird(recips, value)) == RecipsReadings(recips, value)) <==>
              (recips == [] || PlainOk(Join(recips, ",")))
    ensures NotifyThird(recips, value) != "" && NotifyThird(recips, value)[0] == ' '
  {
    TailReadings(value);
    KeysOk();
    var last := [("VALUE", value), ("NOTIFY", "1")];
    if recips == [] {
      assert [] + last == last;
    } else {
      PlainReads("RECIPS", Join(recips, ","), NotifyTail(value), last);
      hide PlainOk, Readings, Join;
    }
  }

  /** Exactly when a printed NOTIFY line is read as it was meant, field by field: when its event, its
      source and its recipients are such as the plain form can carry. */
  lemma NotifyReadIff(event: string, source: string, recips: seq<string>, value: string)
    ensures (Readings(NotifyBody(event, source, recips, value)) == NotifyReadings(event, source, recips, value)) <==>
              (PlainOk(event) && PlainOk(source) && (recips == [] || PlainOk(Join(recips, ","))))
  {
    KeysOk();
    ThirdReadings(recips, value);
    var third, last := NotifyThird(recips, value), RecipsReadings(recips, value);
    var second := " " + (Field("SOURCE", source) + third);
    hide *;
    PlainReads("SOURCE", source, third, last);
    PlainReads("EVENT", event, second, [("SOURCE", source)] + last);
    NotifyBodyIs(event, source, recips, value);
  }

  lemma NotifyBodyIs(event: string, source: string, recips: seq<string>, value: string)
    ensures NotifyBody(event, source, recips, value)
              == Field("EVENT", event) + (" " + (Field("SOURCE", source) + NotifyThird(recips, value)))
    ensures NotifyReadings(event, source, recips, value)
              == [("EVENT", event)] + ([("SOURCE", source)] + RecipsReadings(recips, value))
  {
  }

  /** End to end: the event the printer was given comes back from Parse and ParseNotify, with
      any value whatever -- blanks, '=' or text that looks like further parameters. */
  lemma NotifyRoundTrip(event: string, source: string, recips: seq<string>, value: string)
    requires PlainOk(event) && PlainOk(source) && PlainOk(Join(recips, ","))
    requires recips != [""] && forall r :: r in recips ==> ',' !in r
    ensures Parse("%NOTIFY " + NotifyBody(event, source, recips, value)).Ok?
    ensures ParseNotify(Parse("%NOTIFY " + NotifyBody(event, source, recips, value)).value)
              == Ok(NotifyEvent(Lower(event), source, 0, value, recips, [], "", false, true, false))
  {
    var body := NotifyBody(event, source, recips, value);
    NotifyBodyParams(event, source, recips, value);
    ParseOfNotify(body);
    RecipsBack(recips);
    NotifyFields(event, source, recips, value, body);
  }

  lemma RecipsBack(recips: seq<string>)
    requires recips != [""] && forall r :: r in recips ==> ',' !in r
    ensures recips != [] ==> Join(recips, ",") != "" && Split(Join(recips, ","), ',') == recips
  {
    if recips != [] {
      SplitOfJoin(recips, ',');
      JoinNonEmpty(recips);
    }
  }

  /** And a list of recipients comes back from its field exactly when it is not one empty name and no
      name has a comma. */
  lemma RecipsBackIff(recips: seq<string>)
    ensures HandleList(Join(recips, ",")) == recips <==> recips != [""] && forall r :: r in recips ==> ',' !in r
  {
    if recips != [""] && forall r :: r in recips ==> ',' !in r {
      RecipsBack(recips);
    }
  }

  lemma NotifyFields(event: string, source: string, recips: seq<string>, value: string, raw: string)
    requires recips != [] ==> Join(recips, ",") != "" && Split(Join(recips, ","), ',') == recips
    ensures ParseNotify(Message(MsgNotify, raw, NotifyParams(event, source, recips, value), 0, ""))
              == Ok(NotifyEvent(Lower(event), source, 0, value, recips, [], "", false, true, false))
  {
    NoNumber();
    hide Atoi, Lower, Split, Join;
  }

  lemma NoNumber()
    ensures Atoi("") == None
  {
  }

  lemma JoinNonEmpty(recips: seq<string>)
    requires recips != [] && recips != [""]
    ensures Join(recips, ",") != ""
  {
  }

  lemma OtherLine(p: string, line: string)
    requires |p| > 1 && |line| > 1 && p[1] != line[1]
    ensures !(p <= line) && p != line
  {
  }

  /** Lines that are no messages of the protocol stay what they are, and so do tagged ones. */
  lemma ParseOfRaw(line: string)
    requires ((line == "" || line[0] != '%') && line != "login:" && line != "password:") || "%command [" <= line
    ensures Parse(line) == Ok(Message(MsgRaw, line, map[], 0, line))
  {
    hide CmdBound, WithParams, ParamsFrom, Lower, Trim;
    if "%command [" <= line {
      assert line[0] == '%' && line[1] == 'c' && line[2] == 'o' && line[3] == 'm';
    }
  }

  /** The second character alone tells the cases before %NOTIFY apart. */
  lemma ParseOfNotify(body: string)
    ensures Parse("%NOTIFY " + body) == WithParams(body, MsgNotify)
  {
    var line := "%NOTIFY " + body;
    assert line[8..] == body;
    hide CmdBound, WithParams, ParamsFrom;
    NoSpecialLine(line);
    OtherLine("%begin [", line);
    OtherLine("%end [", line);
    OtherLine("%options ", line);
    OtherLine("%export_file ", line);
  }

  /** A record's line: its kind by the first word, and the parameters that were printed. */
  lemma RecordArrives(kvs: seq<(string, string)>) returns (m: Params)
    requires forall i :: 0 <= i < |kvs| ==> KeyOk(kvs[i].0)
    requires forall i, j :: 0 <= i < j < |kvs| ==> kvs[i].0 != kvs[j].0
    ensures forall k :: k in m <==> exists i :: 0 <= i < |kvs| && kvs[i].0 == k
    ensures forall i :: 0 <= i < |kvs| ==> m[kvs[i].0] == kvs[i].1
    ensures Parse("%USER " + PrintParams(kvs)) == Ok(Message(MsgUser, PrintParams(kvs), m, 0, ""))
    ensures Parse("%DISC " + PrintParams(kvs)) == Ok(Message(MsgDisc, PrintParams(kvs), m, 0, ""))
    ensures Parse("%GROUP " + PrintParams(kvs)) == Ok(Message(MsgGroup, PrintParams(kvs), m, 0, ""))
    ensures Parse("%DATA " + PrintParams(kvs)) == Ok(Message(MsgData, PrintParams(kvs), m, 0, ""))
    ensures Parse("%server " + PrintParams(kvs)) == Ok(Message(MsgServer, PrintParams(kvs), m, 0, ""))
  {
    hide *;
    ParamsRoundTrip(kvs, "");
    m := ParamsFrom(PrintParams(kvs), map[]).value;
    ParseOfRecords(PrintParams(kvs));
    ParamsOf(PrintParams(kvs));
  }

  lemma ParamsOf(raw: string)
    requires ParamsFrom(raw, map[]).Ok?
    ensures forall kind :: WithParams(raw, kind) == Ok(Message(kind, raw, ParamsFrom(raw, map[]).value, 0, ""))
  {
    hide ParamsFrom;
  }

  lemma ParseOfRecords(body: string)
    ensures Parse("%USER " + body) == WithParams(body, MsgUser) && Parse("%DISC " + body) == WithParams(body, MsgDisc)
    ensures Parse("%GROUP " + body) == WithParams(body, MsgGroup) && Parse("%DATA " + body) == WithParams(body, MsgData)
    ensures Parse("%server " + body) == WithParams(body, MsgServer)
  {
    hide *;
    RecordLine("%USER ", body);
    RecordLine("%DISC ", body);
    RecordLine("%GROUP ", body);
    RecordLine("%DATA ", body);
    RecordLine("%server ", body);
  }

  lemma RecordLine(p: string, body: string)
    requires p in {"%USER ", "%DISC ", "%GROUP ", "%DATA ", "%server "}
    ensures Parse(p + body) == WithParams(body, match p case "%USER " => MsgUser case "%DISC " => MsgDisc
                                                case "%GROUP " => MsgGroup case "%DATA " => MsgData case _ => MsgServer)
  {
    hide CmdBound, WithParams, ParamsFrom, Lower, Trim;
    var line := p + body;
    assert p <= line && line[|p|..] == body && line[1] == p[1] && line[2] == p[2];
    NoSpecialLine(line);
    NoBracketLine(line);
    if p != "%USER " { OtherLine("%USER ", line); }
    if p == "%DATA " { OtherRecord(line); }
    if p == "%GROUP " || p == "%server " { OtherLine("%DISC ", line); }
    if p == "%server " { OtherLine("%GROUP ", line); OtherLine("%DATA ", line); }
  }

  lemma OtherRecord(line: string)
    requires |line| > 2 && line[1] == 'D' && line[2] == 'A'
    ensures !("%DISC " <= line) && !("%GROUP " <= line)
  {
  }

  lemma NoBracketLine(line: string)
    requires |line| > 1 && line[1] !in {'b', 'e', 'o', 'N'}
    ensures !("%begin [" <= line) && !("%end [" <= line) && !("%options " <= line)
    ensures !("%export_file " <= line) && !("%NOTIFY " <= line)
  {
  }

  lemma ParseOfBound(rest: string)
    ensures Parse("%begin [" + rest) == CmdBound("%begin [" + rest, "%begin [", MsgCmdBegin)
    ensures Parse("%end [" + rest) == CmdBound("%end [" + rest, "%end [", MsgCmdEnd)
  {
    hide CmdBound, WithParams;
    NoSpecialLine("%begin [" + rest);
    NoSpecialLine("%end [" + rest);
    OtherLine("%begin [", "%end [" + rest);
  }

  /** A line that starts with none of the words Parse looks for before the brackets. */
  lemma NoSpecialLine(line: string)
    requires |line| > 1 && line[0] == '%' && line[1] !in {'c', 'p', 'S'}
    ensures !("login:" <= line) && !("password:" <= line) && !("%connected " <= line)
    ensures !("%pong" <= line) && !("%SLCP-SYNC " <= line) && !("%prompt " <= line)
  {
  }

  // ------------------------------------------------------------- command output

  const TAG := "%command ["

  /** "%command [id] rest", the tag on each output line of a leafed command. */
  function SplitCommandPrefix(line: string): Option<(int, string)> {
    if TAG <= line then AfterTag(line, TAG) else None
  }

  /** The id and the rest of a line, after a tag up to and with its '['. */
  function AfterTag(line: string, tag: string): Option<(int, string)>
    requires tag <= line && ']' !in tag
  {
    match Index(line, "] ")
    case None => None
    case Some(end) =>
      EndAfterTag(line, tag, end);
      match Atoi(line[|tag|..end])
      case None => None
      case Some(id) => Some((id, line[end + 2..]))
  }

  lemma EndAfterTag(line: string, tag: string, end: nat)
    requires tag <= line && ']' !in tag && end <= |line| && "] " <= line[end..]
    ensures |tag| <= end <= |line| - 2
  {
    assert line[end] == line[end..][0] == ']';
    assert forall i :: 0 <= i < |tag| ==> tag[i] in tag && line[i] == tag[i];
  }

  /** The line is a tag with a number in it, a blank, and the rest. */
  ghost predicate IsTagged(line: string, id: int, rest: string) {
    exists d :: IsNumeral(d, id) && line == "%command [" + d + "] " + rest
  }

  lemma AtoiPlain(d: string)
    requires Atoi(d).Some?
    ensures ']' !in d
  {
  }

  /** Exactly the tagged lines are split, and so. */
  lemma SplitIff(line: string, id: int, rest: string)
    ensures SplitCommandPrefix(line) == Some((id, rest)) <==> IsTagged(line, id, rest)
  {
    if SplitCommandPrefix(line) == Some((id, rest)) {
      var end := Index(line, "] ").value;
      EndAfterTag(line, TAG, end);
      SplitAt(line, end);
      AtoiIff(line[|TAG|..end], id);
      hide IsNumeral, Atoi, Index;
      assert line == "%command [" + line[|TAG|..end] + "] " + rest;
    }
    if IsTagged(line, id, rest) {
      var d :| IsNumeral(d, id) && line == "%command [" + d + "] " + rest;
      AtoiIff(d, id);
      AtoiPlain(d);
      hide IsNumeral, Atoi, Index;
      IndexOfTagEnd(TAG + d, rest);
      TagParts(TAG, d, rest);
    }
  }

  lemma SplitAt(line: string, end: nat)
    requires TAG <= line && |TAG| <= end <= |line| - 2 && "] " <= line[end..]
    ensures line == "%command [" + line[|TAG|..end] + "] " + line[end + 2..]
  {
    assert line[end] == line[end..][0] == ']' && line[end + 1] == line[end..][1] == ' ';
  }

  /** What is not tagged is left alone. */
  lemma UntaggedIff(line: string)
    ensures SplitCommandPrefix(line) == None <==> forall id, rest :: !IsTagged(line, id, rest)
  {
    if SplitCommandPrefix(line).Some? {
      SplitIff(line, SplitCommandPrefix(line).value.0, SplitCommandPrefix(line).value.1);
    }
    forall id, rest | IsTagged(line, id, rest) ensures SplitCommandPrefix(line).Some? {
      SplitIff(line, id, rest);
    }
  }

  function Tagged(id: int, text: string): string {
    TAG + Itoa(id) + "] " + text
  }

  lemma IndexOfTagEnd(head: string, text: string)
    requires ']' !in head
    ensures Index(head + "] " + text, "] ") == Some(|head|)
  {
    var line := head + "] " + text;
    assert line[|head|] == ']' && line[|head| + 1] == ' ' && "] " <= line[|head|..];
    forall i | 0 <= i < |head| ensures !("] " <= line[i..]) {
      assert line[i..][0] == head[i] && head[i] in head;
    }
  }

  lemma TagParts(tag: string, digits: string, text: string)
    ensures var line := tag + digits + "] " + text;
      && tag <= line && line[|tag|..|tag + digits|] == digits && line[|tag + digits| + 2..] == text
  {
  }

  lemma AfterTagOf(tag: string, id: int, text: string)
    requires ']' !in tag
    ensures AfterTag(tag + Itoa(id) + "] " + text, tag) == Some((id, text))
  {
    var head := tag + Itoa(id);
    assert ']' !in Itoa(id);
    IndexOfTagEnd(head, text);
    AtoiOfItoa(id);
    TagParts(tag, Itoa(id), text);
    hide Itoa, Atoi, Index;
  }

  /** A tagged line is attributed to its command and loses exactly the tag. */
  lemma TaggedRoundTrip(id: int, text: string)
    ensures SplitCommandPrefix(Tagged(id, text)) == Some((id, text))
  {
    AfterTagOf(TAG, id, text);
    hide AfterTag, Itoa;
  }

  /** The brackets around a command's output carry its id and name through Parse's helper. */
  lemma BoundRoundTrip(p: string, id: int, name: string, kind: MsgType)
    ensures var line := p + (Itoa(id) + "]" + name);
            CmdBound(line, p, kind) == Ok(Message(kind, line, map[], id, Trim(name)))
  {
    var rest := Itoa(id) + "]" + name;
    assert (p + rest)[|p|..] == rest;
    assert ']' !in Itoa(id);
    hide Trim, Itoa, Atoi, Index;
    BracketFound(Itoa(id), name);
    AtoiOfItoa(id);
  }

  lemma BracketFound(digits: string, name: string)
    requires ']' !in digits
    ensures var (rest, n) := (digits + "]" + name, |digits|);
            Index(rest, "]") == Some(n) && rest[..n] == digits && rest[n + 1..] == name
  {
    var rest := digits + "]" + name;
    hide Index;
    forall i | 0 <= i < |digits| ensures !("]" <= rest[i..]) {
      assert rest[i..][0] == digits[i] && digits[i] in digits;
    }
    assert "]" <= rest[|digits|..];
  }
}
