/** The escape-aware hard wrap (internal/tui/ui/format.go, charWrapLinkify and escSeqLen). */
module HardWrap {
  import opened Text
  import opened TextWrap

  const ESC := '\U{1B}'
  const BEL := '\U{07}'

  /** Not the final byte of a control sequence (section 5.4 of ECMA-48). */
  predicate NotFinal(c: char) {
    c < '@' || c > '~'
  }

  /** The end of an operating system command's text, from j on. */
  function OscEnd(s: string, j: nat): (n: nat)
    requires j <= |s|
    ensures j <= n <= |s|
    decreases |s| - j
  {
    if j == |s| then j
    else if s[j] == BEL then j + 1
    else if s[j] == ESC && j + 1 < |s| && s[j + 1] == '\\' then j + 2
    else OscEnd(s, j + 1)
  }

  /** Length of the escape sequence s starts with, 0 if it starts with none. */
  function EscLen(s: string): (n: nat)
    ensures n <= |s|
    ensures n > 0 <==> s != "" && s[0] == ESC
  {
    if s == "" || s[0] != ESC then 0
    else if |s| == 1 then 1
    else if s[1] == '[' then
      var j := 2 + Span(s[2..], NotFinal);
      if j < |s| then j + 1 else j
    else if s[1] == ']' then OscEnd(s, 2)
    else 2
  }

  /** An operating system command ends before m: with BEL, or with the string terminator. */
  predicate EndsOsc(s: string, m: nat)
    requires m <= |s|
  {
    (m >= 3 && s[m - 1] == '\U{07}') || (m >= 4 && s[m - 2] == '\U{1B}' && s[m - 1] == '\\')
  }

  /** The escape sequences (sections 5.4 and 8.3.89 of ECMA-48): a control sequence up to its first byte
      from '@' to '~'; an operating system command up to its first end, for which terminals also take
      BEL; any other of two bytes. One that is not ended takes all there is. */
  predicate IsEscape(s: string, n: nat)
    requires s != "" && n <= |s|
  {
    if |s| == 1 then n == 1
    else if s[1] == '[' then
      && n >= 2 && (forall k :: 2 <= k < n - 1 ==> !('@' <= s[k] <= '~'))
      && ((n > 2 && '@' <= s[n - 1] <= '~') || (n == |s| && (n > 2 ==> !('@' <= s[n - 1] <= '~'))))
    else if s[1] == ']' then
      && n >= 2 && (forall m :: 0 <= m < n ==> !EndsOsc(s, m))
      && (EndsOsc(s, n) || n == |s|)
    else n == 2
  }

  lemma EscLenIff(s: string, n: nat)
    requires s != "" && s[0] == '\U{1B}' && n <= |s|
    ensures n == EscLen(s) <==> IsEscape(s, n)
  {
    if |s| > 1 && s[1] == '[' {
      CsiIff(s, n);
    } else if |s| > 1 && s[1] == ']' {
      OscIff(s, n);
    }
  }

  lemma CsiIff(s: string, n: nat)
    requires |s| > 1 && s[0] == ESC && s[1] == '[' && n <= |s|
    ensures n == EscLen(s) <==> IsEscape(s, n)
  {
    var t := s[2..];
    var j := 2 + Span(t, NotFinal);
    assert forall k :: 2 <= k < |s| ==> s[k] == t[k - 2];
    assert forall k :: 2 <= k < j ==> NotFinal(s[k]);
  }

  lemma OscIff(s: string, n: nat)
    requires |s| > 1 && s[0] == ESC && s[1] == ']' && n <= |s|
    ensures n == EscLen(s) <==> IsEscape(s, n)
  {
    OscEndIs(s, 2);
    var e := OscEnd(s, 2);
    if n < e { assert !EndsOsc(s, n); }
    if e < n { assert EndsOsc(s, e); }
  }

  lemma {:induction false} OscEndIs(s: string, j: nat)
    requires 2 <= j <= |s| && s[1] == ']' && (forall m :: 0 <= m <= j ==> !EndsOsc(s, m))
    requires j > 2 && j < |s| && s[j - 1] == ESC ==> s[j] != '\\'
    ensures var e := OscEnd(s, j); e >= 2 && (forall m :: 0 <= m < e ==> !EndsOsc(s, m)) && (EndsOsc(s, e) || e == |s|)
    decreases |s| - j
  {
    if j < |s| && s[j] != BEL {
      assert !EndsOsc(s, j + 1);
      if !(s[j] == ESC && j + 1 < |s| && s[j + 1] == '\\') { OscEndIs(s, j + 1); }
    }
  }

  method EscSeqLen(s: string, i: nat) returns (n: nat)
    requires i <= |s|
    ensures n == EscLen(s[i..])
  {
    ghost var t := s[i..];
    if i >= |s| || s[i] != ESC {
      return 0;
    }
    if i + 1 >= |s| {
      return 1;
    }
    if s[i + 1] == '[' {
      var j := i + 2;
      while j < |s| && (s[j] < '@' || s[j] > '~')
        invariant i + 2 <= j <= |s| && forall k :: i + 2 <= k < j ==> NotFinal(s[k])
      {
        j := j + 1;
      }
      assert t[2..] == s[i + 2..];
      SpanIs(s[i + 2..], NotFinal, j - i - 2);
      if j < |s| {
        j := j + 1;
      }
      return j - i;
    } else if s[i + 1] == ']' {
      var j := i + 2;
      while j < |s|
        invariant i + 2 <= j <= |s| && OscEnd(t, j - i) == OscEnd(t, 2)
      {
        if s[j] == BEL {
          return j + 1 - i;
        }
        if s[j] == ESC && j + 1 < |s| && s[j + 1] == '\\' {
          return j + 2 - i;
        }
        j := j + 1;
      }
      return j - i;
    }
    return 2;
  }

  // ------------------------------------------------------------- the pieces

  /** What the scan steps over: an escape sequence, or one visible character. */
  function Token(s: string): (n: nat)
    requires s != ""
    ensures 1 <= n <= |s|
  {
    if s[0] == ESC then EscLen(s) else 1
  }

  function Visible(s: string): nat {
    if s == "" then 0 else (if s[0] == ESC then 0 else 1) + Visible(s[Token(s)..])
  }

  /** How far a piece reaches that has room for this many more visible characters. */
  function PieceLen(s: string, room: nat): (n: nat)
    ensures n <= |s|
    ensures s != "" && room > 0 ==> n > 0
    ensures n < |s| ==> s[n] != ESC
  {
    if s == "" || (room == 0 && s[0] != ESC) then 0
    else Token(s) + PieceLen(s[Token(s)..], if s[0] == ESC then room else room - 1)
  }

  function Pieces(s: string, width: nat): (ps: seq<string>)
    requires width > 0
    ensures ps != []
    decreases |s|
  {
    var n := PieceLen(s, width);
    if n == |s| then [s] else [s[..n]] + Pieces(s[n..], width)
  }

  /** n is a place between two tokens of s. */
  predicate Boundary(s: string, n: nat)
    requires n <= |s|
  {
    n == 0 || (Token(s) <= n && Boundary(s[Token(s)..], n - Token(s)))
  }

  lemma {:induction false} PieceLenBoundary(s: string, room: nat)
    ensures Boundary(s, PieceLen(s, room))
    decreases |s|
  {
    if s != "" && !(room == 0 && s[0] != ESC) {
      hide Token;
      PieceLenBoundary(s[Token(s)..], if s[0] == ESC then room else room - 1);
    }
  }

  /** An escape sequence reads the same when what follows it is cut off. */
  lemma TokenOfPrefix(s: string, n: nat)
    requires s != "" && Token(s) <= n <= |s|
    ensures s[..n] != "" && Token(s[..n]) == Token(s)
  {
    var t := s[..n];
    if s[0] == ESC && |s| > 1 {
      if s[1] == '[' {
        var k := Span(s[2..], NotFinal);
        assert t[2..] == s[2..][..n - 2];
        SpanIs(t[2..], NotFinal, k);
      } else if s[1] == ']' {
        OscOfPrefix(s, n, 2);
      }
    }
  }

  lemma {:induction false} OscOfPrefix(s: string, n: nat, j: nat)
    requires j <= n <= |s| && OscEnd(s, j) <= n
    ensures OscEnd(s[..n], j) == OscEnd(s, j)
    decreases |s| - j
  {
    if j < |s| && s[j] != BEL && !(s[j] == ESC && j + 1 < |s| && s[j + 1] == '\\') {
      OscOfPrefix(s, n, j + 1);
    }
  }

  lemma PieceLenStep(s: string, room: nat)
    requires s != "" && (s[0] == ESC || room > 0)
    ensures PieceLen(s, room) == Token(s) + PieceLen(s[Token(s)..], if s[0] == ESC then room else room - 1)
  {
  }

  lemma VisibleStep(s: string)
    requires s != ""
    ensures Visible(s) == (if s[0] == ESC then 0 else 1) + Visible(s[Token(s)..])
  {
  }

  /** One token more in front of what is cut off at n. */
  lemma AloneStep(s: string, n: nat, room: nat)
    requires s != "" && (s[0] == ESC || room > 0) && Token(s) <= n <= |s|
    ensures var (k, left) := (Token(s), if s[0] == ESC then room else room - 1);
      && Visible(s[..n]) == (if s[0] == ESC then 0 else 1) + Visible(s[k..][..n - k])
      && PieceLen(s[..n], room) == k + PieceLen(s[k..][..n - k], left)
  {
    hide *;
    var t, k := s[..n], Token(s);
    TokenOfPrefix(s, n);
    VisibleStep(t);
    assert t[0] == s[0];
    PieceLenStep(t, room);
    assert t[k..] == s[k..][..n - k];
  }

  /** A piece on its own has the visible width it was cut to, and fits in one piece. */
  lemma {:induction false} PieceAlone(s: string, room: nat)
    ensures var n := PieceLen(s, room);
            && Visible(s[..n]) <= room
            && (n < |s| ==> Visible(s[..n]) == room)
            && PieceLen(s[..n], room) == n
    decreases |s|
  {
    hide *;
    if s != "" && (s[0] == ESC || room > 0) {
      PieceLenStep(s, room);
      PieceAlone(s[Token(s)..], if s[0] == ESC then room else room - 1);
      AloneStep(s, PieceLen(s, room), room);
    } else {
      NothingTaken(s, room);
    }
  }

  lemma NothingTaken(s: string, room: nat)
    requires s == "" || (s[0] != ESC && room == 0)
    ensures PieceLen(s, room) == 0 && s[..0] == "" && Visible("") == 0 && PieceLen("", room) == 0
  {
  }

  function Concat(ps: seq<string>): string {
    if ps == [] then "" else ps[0] + Concat(ps[1..])
  }

  /** Put together the pieces give back the line, every one but the last has exactly width visible
      characters and the last no more, and each is left alone when wrapped again. */
  ghost predicate PiecesOk(ps: seq<string>, s: string, width: nat)
    requires width > 0
  {
    && ps != [] && Concat(ps) == s
    && (forall k :: 0 <= k < |ps| - 1 ==> Visible(ps[k]) == width)
    && Visible(ps[|ps| - 1]) <= width
    && (forall k :: 0 <= k < |ps| ==> Pieces(ps[k], width) == [ps[k]])
  }

  lemma OnePiece(s: string, width: nat)
    requires width > 0 && Visible(s) <= width && Pieces(s, width) == [s]
    ensures PiecesOk([s], s, width)
  {
    hide Pieces, Visible;
    assert [s][1..] == [] && Concat([s][1..]) == "" && s + "" == s;
  }

  lemma PieceInFront(first: string, rest: seq<string>, s: string, width: nat)
    requires width > 0 && PiecesOk(rest, s, width) && Visible(first) == width && Pieces(first, width) == [first]
    ensures PiecesOk([first] + rest, first + s, width)
  {
    hide Pieces, Visible;
    assert ([first] + rest)[1..] == rest;
  }

  /** What the whole of a piece is wrapped to. */
  lemma WholePiece(s: string, width: nat)
    requires width > 0 && PieceLen(s, width) == |s|
    ensures Pieces(s, width) == [s]
  {
  }

  lemma CutPiece(s: string, width: nat)
    requires width > 0 && PieceLen(s, width) < |s|
    ensures var n := PieceLen(s, width); Pieces(s, width) == [s[..n]] + Pieces(s[n..], width)
    ensures |s[PieceLen(s, width)..]| < |s|
  {
    hide Token, Visible;
  }

  /** The pieces are the line. */
  lemma {:induction false} PiecesOfLine(s: string, width: nat)
    requires width > 0
    ensures PiecesOk(Pieces(s, width), s, width)
    decreases |s|
  {
    hide *;
    var n := PieceLen(s, width);
    PieceAlone(s, width);
    if n == |s| {
      assert s[..n] == s;
      WholePiece(s, width);
      OnePiece(s, width);
    } else {
      CutPiece(s, width);
      WholePiece(s[..n], width);
      PiecesOfLine(s[n..], width);
      PieceInFront(s[..n], Pieces(s[n..], width), s[n..], width);
      assert s[..n] + s[n..] == s;
    }
  }

  /** Where the k-th piece begins. */
  function CutAt(s: string, width: nat, k: nat): (n: nat)
    requires width > 0 && k < |Pieces(s, width)|
    ensures n <= |s|
    decreases k
  {
    if k == 0 then 0 else
      var n := PieceLen(s, width);
      assert Pieces(s, width)[1..] == Pieces(s[n..], width);
      n + CutAt(s[n..], width, k - 1)
  }

  lemma {:induction false} BoundaryAfter(s: string, n: nat, m: nat)
    requires n <= |s| && m <= |s[n..]| && Boundary(s, n) && Boundary(s[n..], m)
    ensures Boundary(s, n + m)
    decreases |s|
  {
    if n > 0 {
      var t := Token(s);
      hide Token;
      assert s[t..][n - t..] == s[n..];
      BoundaryAfter(s[t..], n - t, m);
    } else {
      assert s[0..] == s;
    }
  }

  /** No cut falls inside an escape sequence: each is between two tokens, just before a
      visible character. */
  lemma {:induction false} CutsBetweenTokens(s: string, width: nat, k: nat)
    requires width > 0 && 0 < k < |Pieces(s, width)|
    ensures var n := CutAt(s, width, k); n < |s| && Boundary(s, n) && s[n] != ESC
    decreases k
  {
    hide *;
    CutStep(s, width, k);
    PieceLenBoundary(s, width);
    var n := PieceLen(s, width);
    var m := CutAt(s[n..], width, k - 1);
    if k > 1 {
      CutsBetweenTokens(s[n..], width, k - 1);
      BoundaryAfter(s, n, m);
      assert s[n..][m] == s[n + m];
    } else {
      FirstCut(s[n..], width);
    }
  }

  lemma CutStep(s: string, width: nat, k: nat)
    requires width > 0 && 0 < k < |Pieces(s, width)|
    ensures var n := PieceLen(s, width);
      n < |s| && k - 1 < |Pieces(s[n..], width)| && CutAt(s, width, k) == n + CutAt(s[n..], width, k - 1)
    ensures s[PieceLen(s, width)] != ESC
  {
    hide Token;
    if PieceLen(s, width) < |s| { CutPiece(s, width); }
  }

  lemma FirstCut(s: string, width: nat)
    requires width > 0 && 0 < |Pieces(s, width)|
    ensures CutAt(s, width, 0) == 0
  {
  }

  // ------------------------------------------------------------- the code

  datatype UrlAt = UrlAt(start: nat, end: nat, id: nat)

  predicate SpansOk(spans: seq<UrlAt>, n: nat) {
    forall k :: 0 <= k < |spans| ==> spans[k].start <= spans[k].end <= n
  }

  predicate Inside(u: UrlAt, i: nat) {
    u.start <= i < u.end
  }

  /** The pattern's matches do not overlap. */
  ghost predicate Apart(spans: seq<UrlAt>) {
    forall j, k, i: nat ::
      0 <= j < k < |spans| ==> !(Inside(spans[j], i) && Inside(spans[k], i))
  }

  /** The span that i lies in. */
  function SpanAt(spans: seq<UrlAt>, i: nat): (k: nat)
    ensures k <= |spans| && (k < |spans| ==> Inside(spans[k], i))
    ensures forall j :: 0 <= j < k ==> !Inside(spans[j], i)
  {
    if spans == [] || Inside(spans[0], i) then 0 else 1 + SpanAt(spans[1..], i)
  }

  /** The characters of line[a..b] that lie inside a span, each with the whole URL and its id. */
  function Linked(line: string, spans: seq<UrlAt>, a: nat, b: nat): seq<Hot>
    requires a <= b <= |line| && SpansOk(spans, |line|)
    decreases b
  {
    if a == b then [] else
      var k := SpanAt(spans, b - 1);
      Linked(line, spans, a, b - 1)
        + if k == |spans| then [] else [Hot(line[b - 1], line[spans[k].start..spans[k].end], spans[k].id)]
  }

  lemma {:induction false} LinkedJoins(line: string, spans: seq<UrlAt>, a: nat, m: nat, b: nat)
    requires a <= m <= b <= |line| && SpansOk(spans, |line|)
    ensures Linked(line, spans, a, m) + Linked(line, spans, m, b) == Linked(line, spans, a, b)
    decreases b
  {
    if m < b {
      LinkedJoins(line, spans, a, m, b - 1);
    }
  }

  /** A character inside a span has its own place there, behind those of the characters before it, and
      every place is some character's. */
  lemma LinkedAt(line: string, spans: seq<UrlAt>, a: nat, b: nat, i: nat, k: nat)
    requires a <= i < b <= |line| && SpansOk(spans, |line|) && Apart(spans)
    requires k < |spans| && Inside(spans[k], i)
    ensures var n := |Linked(line, spans, a, i)|;
            n < |Linked(line, spans, a, b)|
            && Linked(line, spans, a, b)[n] == Hot(line[i], line[spans[k].start..spans[k].end], spans[k].id)
  {
    LinkedJoins(line, spans, a, i + 1, b);
    assert SpanAt(spans, i) == k;
  }

  lemma {:induction false} LinkedOnly(line: string, spans: seq<UrlAt>, a: nat, b: nat, n: nat) returns (i: nat)
    requires a <= b <= |line| && SpansOk(spans, |line|) && n < |Linked(line, spans, a, b)|
    ensures a <= i < b && n == |Linked(line, spans, a, i)| && exists k :: 0 <= k < |spans| && Inside(spans[k], i)
    decreases b
  {
    if n < |Linked(line, spans, a, b - 1)| {
      i := LinkedOnly(line, spans, a, b - 1, n);
    } else {
      i := b - 1;
    }
  }

  lemma {:induction false} NoneLinked(line: string, spans: seq<UrlAt>, a: nat, b: nat)
    requires a <= b <= |line| && SpansOk(spans, |line|)
    requires forall i :: a <= i < b ==> SpanAt(spans, i) == |spans|
    ensures Linked(line, spans, a, b) == []
    decreases b
  {
    if a < b { NoneLinked(line, spans, a, b - 1); }
  }

  lemma {:induction false} AllLinked(line: string, spans: seq<UrlAt>, a: nat, b: nat, k: nat)
    requires a <= b <= |line| && SpansOk(spans, |line|) && k < |spans|
    requires forall i :: a <= i < b ==> SpanAt(spans, i) == k
    ensures Linked(line, spans, a, b) == HotText(line[a..b], line[spans[k].start..spans[k].end], spans[k].id)
    decreases b
  {
    if a < b {
      AllLinked(line, spans, a, b - 1, k);
      assert line[a..b] == line[a..b - 1] + [line[b - 1]];
    }
  }

  /** line[a..b], with what lies inside a URL span shown as a link to the whole URL. */
  method RenderSpans(line: string, spans: seq<UrlAt>, a: nat, b: nat) returns (ps: seq<Piece>)
    requires a <= b <= |line| && SpansOk(spans, |line|)
    ensures Erase(ps) == line[a..b]
    ensures Apart(spans) ==> Hots(ps) == Linked(line, spans, a, b)
  {
    hide Erase, Hots, Linked, Apart, HotText;
    ps := [];
    Nothing(line, spans, a);
    var i := a;
    while i < b
      invariant a <= i <= b && Erase(ps) == line[a..i]
      invariant Apart(spans) ==> Hots(ps) == Linked(line, spans, a, i)
    {
      var sp := 0;
      while sp < |spans| && !(spans[sp].start <= i < spans[sp].end)
        invariant sp <= |spans| && forall k :: 0 <= k < sp ==> !Inside(spans[k], i)
      {
        sp := sp + 1;
      }
      var next := b;
      var piece;
      if sp == |spans| {
        next := NextStart(spans, i, b);
        piece := Plain(line[i..next]);
        PlainStretch(line, spans, i, next);
      } else {
        next := if b < spans[sp].end then b else spans[sp].end;
        piece := Link(line[spans[sp].start..spans[sp].end], spans[sp].id, line[i..next]);
        if Apart(spans) { LinkStretch(line, spans, i, next, sp); }
      }
      HotsSnoc(ps, piece);
      LinkedJoins(line, spans, a, i, next);
      assert line[a..next] == line[a..i] + line[i..next];
      ps := ps + [piece];
      i := next;
    }
  }

  lemma Nothing(line: string, spans: seq<UrlAt>, a: nat)
    requires a <= |line| && SpansOk(spans, |line|)
    ensures Erase([]) == line[a..a] && Hots([]) == Linked(line, spans, a, a)
  {
  }

  lemma PlainStretch(line: string, spans: seq<UrlAt>, i: nat, next: nat)
    requires i < next <= |line| && SpansOk(spans, |line|)
    requires forall k :: 0 <= k < |spans| ==> !Inside(spans[k], i)
    requires forall k :: 0 <= k < |spans| && i < spans[k].start ==> next <= spans[k].start
    ensures Linked(line, spans, i, next) == []
    ensures forall x: seq<Hot> :: x + [] == x
  {
    forall p | i <= p < next ensures SpanAt(spans, p) == |spans| {
      var k := SpanAt(spans, p);
    }
    NoneLinked(line, spans, i, next);
  }

  lemma LinkStretch(line: string, spans: seq<UrlAt>, i: nat, next: nat, k: nat)
    requires i <= next <= |line| && SpansOk(spans, |line|) && Apart(spans) && k < |spans|
    requires spans[k].start <= i && next <= spans[k].end
    ensures Linked(line, spans, i, next) == HotText(line[i..next], line[spans[k].start..spans[k].end], spans[k].id)
  {
    forall p | i <= p < next ensures SpanAt(spans, p) == k {
      assert Inside(spans[k], p);
    }
    AllLinked(line, spans, i, next, k);
  }

  /** Where the next span after i starts, if before b. */
  method NextStart(spans: seq<UrlAt>, i: nat, b: nat) returns (next: nat)
    requires i < b
    ensures i < next <= b
    ensures forall k :: 0 <= k < |spans| && i < spans[k].start ==> next <= spans[k].start
  {
    next := b;
    for k := 0 to |spans|
      invariant i < next <= b
      invariant forall j :: 0 <= j < k && i < spans[j].start ==> next <= spans[j].start
    {
      if i < spans[k].start < next {
        next := spans[k].start;
      }
    }
  }

  /** charWrapLinkify; spans stands for what the URL pattern finds. With links erased the
      result is the pieces of the line; what is linked, over all the lines, is what lies inside a
      match, under the match's own URL and id. */
  method CharWrapLinkify(line: string, maxWidth: int, spans: seq<UrlAt>) returns (out: seq<seq<Piece>>)
    requires SpansOk(spans, |line|)
    ensures Erased(out) == Pieces(line, Width(maxWidth))
    ensures Apart(spans) ==> LineHots(out) == Linked(line, spans, 0, |line|)
  {
    hide Erase, EscLen, Pieces, PieceLen, Token;
    var width := if maxWidth < 1 then 1 else maxWidth;
    assert width == Width(maxWidth);
    hide *;
    var col, lineStart, i := 0, 0, 0;
    out := [];
    ReachStart(line, width);
    NoLinks(line, spans);
    while i < |line|
      invariant Output(out, line, lineStart, width) && Reach(line, lineStart, i, col, width)
      invariant lineStart <= i <= |line| && col <= width
      invariant LinksTo(out, line, spans, lineStart)
    {
      var n := EscSeqLen(line, i);
      Advance(line, lineStart, i, col, width, n);
      if n > 0 {
        i := i + n;
        continue;
      }
      if col == width {
        out := Flush(line, spans, out, lineStart, i, width);
        lineStart, col := i, 0;
      }
      i := i + 1;
      col := col + 1;
    }
    out := FlushLast(line, spans, out, lineStart, col, width);
    LinksAll(out, line, spans);
  }

  /** What is linked so far, when the piece under way began at a. */
  ghost predicate LinksTo(out: seq<seq<Piece>>, line: string, spans: seq<UrlAt>, a: nat) {
    SpansOk(spans, |line|) && a <= |line| && (Apart(spans) ==> LineHots(out) == Linked(line, spans, 0, a))
  }

  lemma NoLinks(line: string, spans: seq<UrlAt>)
    requires SpansOk(spans, |line|)
    ensures LinksTo([], line, spans, 0)
  {
  }

  lemma LinksAll(out: seq<seq<Piece>>, line: string, spans: seq<UrlAt>)
    requires LinksTo(out, line, spans, |line|)
    ensures Apart(spans) ==> LineHots(out) == Linked(line, spans, 0, |line|)
  {
    hide LineHots, Linked, Apart;
  }

  lemma LinksGrow(out: seq<seq<Piece>>, piece: seq<Piece>, line: string, spans: seq<UrlAt>, a: nat, b: nat)
    requires LinksTo(out, line, spans, a) && a <= b <= |line|
    requires Apart(spans) ==> Hots(piece) == Linked(line, spans, a, b)
    ensures LinksTo(out + [piece], line, spans, b)
  {
    hide Hots, Linked, Apart;
    LinkedJoins(line, spans, 0, a, b);
    assert (out + [piece])[..|out|] == out;
  }

  /** append(out, render(lineStart, i)) in front of a visible character. */
  method Flush(line: string, spans: seq<UrlAt>, out: seq<seq<Piece>>, a: nat, i: nat, width: nat)
    returns (all: seq<seq<Piece>>)
    requires SpansOk(spans, |line|) && i < |line| && line[i] != ESC
    requires Output(out, line, a, width) && Reach(line, a, i, width, width) && LinksTo(out, line, spans, a)
    ensures Output(all, line, i, width) && Reach(line, i, i + 1, 1, width) && LinksTo(all, line, spans, i)
  {
    ReachFull(line, a, i, width);
    ReachChar(line, i, i, 0, width);
    CutOne(line, a, i, width);
    hide Pieces, PieceLen, Erase, Token, LinksTo, Hots, Linked, Apart;
    var piece := RenderSpans(line, spans, a, i);
    LinksGrow(out, piece, line, spans, a, i);
    OutGrows(out, piece, Pieces(line[i..], width));
    all := out + [piece];
  }

  method FlushLast(line: string, spans: seq<UrlAt>, out: seq<seq<Piece>>, a: nat, col: nat, width: nat)
    returns (all: seq<seq<Piece>>)
    requires SpansOk(spans, |line|) && Output(out, line, a, width) && Reach(line, a, |line|, col, width)
    requires LinksTo(out, line, spans, a)
    ensures Erased(all) == Pieces(line, width) && LinksTo(all, line, spans, |line|)
  {
    assert line[a..|line|] == line[a..];
    NoRoom(line[|line|..]);
    LastPiece(line[a..], width);
    hide Pieces, PieceLen, Erase, Token, LinksTo, Hots, Linked, Apart;
    var piece := RenderSpans(line, spans, a, |line|);
    LinksGrow(out, piece, line, spans, a, |line|);
    OutGrows(out, piece, []);
    assert Erased(out + [piece]) + [] == Erased(out + [piece]);
    all := out + [piece];
  }

  /** What is out so far, when the piece under way began at a. */
  ghost predicate Output(out: seq<seq<Piece>>, line: string, a: nat, width: nat) {
    a <= |line| && width > 0 && Erased(out) + Pieces(line[a..], width) == Pieces(line, width)
  }

  /** The piece under way began at a, has reached i and shows col characters. */
  ghost predicate Reach(line: string, a: nat, i: nat, col: nat, width: nat) {
    && a <= i <= |line| && col <= width
    && PieceLen(line[a..], width) == i - a + PieceLen(line[i..], width - col)
  }

  lemma ReachStart(line: string, width: nat)
    requires width > 0
    ensures Reach(line, 0, 0, 0, width) && Output([], line, 0, width)
  {
    assert line[0..] == line && Erased([]) == [];
  }

  /** An escape sequence is taken whole; any other character takes a column, if there is one. */
  lemma Advance(line: string, a: nat, i: nat, col: nat, width: nat, n: nat)
    requires i < |line| && Reach(line, a, i, col, width) && n == EscLen(line[i..])
    ensures n > 0 ==> i + n <= |line| && Reach(line, a, i + n, col, width)
    ensures n == 0 ==> line[i] != ESC && (col < width ==> Reach(line, a, i + 1, col + 1, width))
  {
    var t := line[i..];
    assert t[0] == line[i];
    TokenIs(t);
    if n > 0 {
      PieceLenStep(t, width - col);
      assert t[n..] == line[i + n..];
    } else if col < width {
      ReachChar(line, a, i, col, width);
    }
  }

  lemma ReachChar(line: string, a: nat, i: nat, col: nat, width: nat)
    requires i < |line| && Reach(line, a, i, col, width) && line[i] != ESC && col < width
    ensures Reach(line, a, i + 1, col + 1, width)
  {
    var t := line[i..];
    TokenIs(t);
    PieceLenStep(t, width - col);
    assert t[0] == line[i] && t[1..] == line[i + 1..];
  }

  lemma ReachFull(line: string, a: nat, i: nat, width: nat)
    requires i < |line| && Reach(line, a, i, width, width) && line[i] != ESC
    ensures PieceLen(line[a..], width) == i - a && Reach(line, i, i, 0, width)
  {
    assert line[i..][0] == line[i];
    NoRoom(line[i..]);
  }

  lemma OutGrows(out: seq<seq<Piece>>, piece: seq<Piece>, rest: seq<string>)
    ensures Erased(out + [piece]) + rest == Erased(out) + ([Erase(piece)] + rest)
  {
    hide Erase;
    assert Erased(out + [piece]) == Erased(out) + [Erase(piece)];
  }

  lemma TokenIs(s: string)
    requires s != ""
    ensures Token(s) == if s[0] == ESC then EscLen(s) else 1
  {
  }

  lemma NoRoom(s: string)
    requires s == "" || s[0] != ESC
    ensures PieceLen(s, 0) == 0 && (s == "" ==> forall room :: PieceLen(s, room) == 0)
  {
  }

  lemma CutOne(line: string, a: nat, b: nat, width: nat)
    requires a <= b < |line| && width > 0 && PieceLen(line[a..], width) == b - a
    ensures Pieces(line[a..], width) == [line[a..b]] + Pieces(line[b..], width)
  {
    assert line[a..][..b - a] == line[a..b] && line[a..][b - a..] == line[b..];
  }

  lemma LastPiece(s: string, width: nat)
    requires width > 0 && PieceLen(s, width) == |s|
    ensures Pieces(s, width) == [s]
  {
  }
}
