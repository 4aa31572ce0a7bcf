/** Ghost text in the input line: previews drawn after URLs that are not part of the line
    (internal/tui/ui/linkpreview.go). URL scanning is not part of this model: a line comes with
    the spans of its URLs. */
module Ghosts {
  import opened Text

  datatype PreviewKey = PreviewKey(url: string, occ: nat)

  /** A URL of the line; end is the offset just past it. */
  datatype UrlSpan = UrlSpan(start: nat, end: nat, key: PreviewKey)

  datatype Ghost = Ghost(at: nat, text: string, key: PreviewKey, placeholder: bool)

  /** A stretch of the drawn line that is ghost text. */
  datatype GhostSpan = GhostSpan(start: nat, end: nat, key: PreviewKey)

  predicate Anchored(gs: seq<Ghost>, n: nat) {
    && (forall i :: 0 <= i < |gs| ==> gs[i].at <= n && gs[i].text != "")
    && (forall i, j :: 0 <= i < j < |gs| ==> gs[i].at < gs[j].at)
  }

  // ------------------------------------------------------------- the drawn line

  /** The line with every ghost spliced in at its anchor, the last ghost first. */
  function Display(input: string, gs: seq<Ghost>): (r: string)
    requires Anchored(gs, |input|)
    decreases |gs|
  {
    if gs == [] then input
    else
      var g := gs[|gs| - 1];
      Display(input[..g.at], gs[..|gs| - 1]) + g.text + input[g.at..]
  }

  /** The total width of the ghosts anchored before off. */
  function Width(gs: seq<Ghost>, off: int): nat {
    if gs == [] then 0
    else
      var g := gs[|gs| - 1];
      Width(gs[..|gs| - 1], off) + if g.at < off then |g.text| else 0
  }

  /** toDisplay. */
  function Drawn(gs: seq<Ghost>, off: int): int {
    off + Width(gs, off)
  }

  function SpansOf(gs: seq<Ghost>): seq<GhostSpan> {
    seq(|gs|, i requires 0 <= i < |gs| =>
      GhostSpan(gs[i].at + Width(gs, gs[i].at), gs[i].at + Width(gs, gs[i].at) + |gs[i].text|, gs[i].key))
  }

  /** s without the spans, the last taken out first. */
  function EraseSpans(s: string, spans: seq<GhostSpan>): string
    decreases |spans|
  {
    if spans == [] then s
    else
      var sp := spans[|spans| - 1];
      if sp.start <= sp.end <= |s| then EraseSpans(s[..sp.start] + s[sp.end..], spans[..|spans| - 1]) else s
  }

  lemma {:induction false} WidthMonotone(gs: seq<Ghost>, a: int, b: int)
    requires a <= b
    ensures Width(gs, a) <= Width(gs, b)
  {
    if gs != [] {
      WidthMonotone(gs[..|gs| - 1], a, b);
    }
  }

  /** Ghosts anchored at or after off add nothing to it. */
  lemma {:induction false} WidthUpTo(gs: seq<Ghost>, k: nat, off: int)
    requires k <= |gs| && forall i :: k <= i < |gs| ==> gs[i].at >= off
    ensures Width(gs, off) == Width(gs[..k], off)
    decreases |gs| - k
  {
    if k < |gs| {
      WidthUpTo(gs[..|gs| - 1], k, off);
      assert gs[..|gs| - 1][..k] == gs[..k];
    } else {
      assert gs[..k] == gs;
    }
  }

  /** Once past every anchor, where exactly does not matter. */
  lemma {:induction false} WidthPast(gs: seq<Ghost>, a: int, b: int)
    requires forall i :: 0 <= i < |gs| ==> gs[i].at < a && gs[i].at < b
    ensures Width(gs, a) == Width(gs, b)
  {
    if gs != [] {
      WidthPast(gs[..|gs| - 1], a, b);
    }
  }

  /** Text after every anchor is drawn as it is. */
  lemma DisplayExtends(input: string, more: string, gs: seq<Ghost>)
    requires Anchored(gs, |input|)
    ensures Anchored(gs, |input + more|)
    ensures Display(input + more, gs) == Display(input, gs) + more
  {
    if gs != [] {
      var g := gs[|gs| - 1];
      assert (input + more)[..g.at] == input[..g.at];
      assert (input + more)[g.at..] == input[g.at..] + more;
    }
  }

  lemma {:induction false} DisplayLength(input: string, gs: seq<Ghost>)
    requires Anchored(gs, |input|)
    ensures |Display(input, gs)| == |input| + Width(gs, |input| + 1)
    decreases |gs|
  {
    if gs != [] {
      var g := gs[|gs| - 1];
      DisplayLength(input[..g.at], gs[..|gs| - 1]);
      WidthPast(gs[..|gs| - 1], g.at + 1, |input| + 1);
    }
  }

  /** Up to the last ghost, the drawn line is what the ghosts before it make of the text before
      its anchor, and that stretch ends where its span starts. */
  lemma LastSpan(input: string, gs: seq<Ghost>)
    requires Anchored(gs, |input|) && gs != []
    ensures var g, sp := gs[|gs| - 1], SpansOf(gs)[|gs| - 1];
      && sp.start == |Display(input[..g.at], gs[..|gs| - 1])|
      && sp.end == sp.start + |g.text| <= |Display(input, gs)|
  {
    var m := |gs| - 1;
    DisplayLength(input[..gs[m].at], gs[..m]);
    WidthUpTo(gs, m, gs[m].at);
    WidthPast(gs[..m], gs[m].at, gs[m].at + 1);
  }

  /** Where the ghosts before k leave off. */
  function Anchor(gs: seq<Ghost>, k: nat): nat
    requires k <= |gs|
  {
    if k == 0 then 0 else gs[k - 1].at
  }

  /** One more ghost, and the text up to it. */
  lemma DisplayStep(input: string, gs: seq<Ghost>, k: nat)
    requires Anchored(gs, |input|) && k < |gs|
    ensures Anchored(gs[..k], Anchor(gs, k)) && Anchored(gs[..k + 1], gs[k].at)
    ensures Anchor(gs, k) <= gs[k].at <= |input|
    ensures Display(input[..gs[k].at], gs[..k + 1])
      == Display(input[..Anchor(gs, k)], gs[..k]) + input[Anchor(gs, k)..gs[k].at] + gs[k].text
  {
    var g, prev := gs[k], Anchor(gs, k);
    assert gs[..k + 1][..k] == gs[..k];
    assert input[..g.at] == input[..prev] + input[prev..g.at];
    DisplayExtends(input[..prev], input[prev..g.at], gs[..k]);
    assert input[..g.at][..g.at] == input[..g.at] && input[..g.at][g.at..] == "";
  }

  lemma AnchoredUpTo(gs: seq<Ghost>, n: nat, k: nat)
    requires Anchored(gs, n) && k <= |gs|
    ensures Anchored(gs[..k], Anchor(gs, k)) && Anchor(gs, k) <= n
  {
  }

  lemma Halves(s: string, n: nat)
    requires n <= |s|
    ensures s[..n] + s[n..] == s
  {
  }

  lemma DisplayEnd(input: string, gs: seq<Ghost>)
    requires Anchored(gs, |input|)
    ensures Anchor(gs, |gs|) <= |input| && Anchored(gs, Anchor(gs, |gs|))
    ensures Display(input, gs) == Display(input[..Anchor(gs, |gs|)], gs) + input[Anchor(gs, |gs|)..]
  {
    var prev := Anchor(gs, |gs|);
    AnchoredUpTo(gs, |input|, |gs|);
    assert gs[..|gs|] == gs;
    Halves(input, prev);
    hide Anchored, Display, Anchor;
    DisplayExtends(input[..prev], input[prev..], gs);
  }

  lemma SpansOfPrefix(gs: seq<Ghost>, n: nat)
    requires Anchored(gs, n) && gs != []
    ensures SpansOf(gs)[..|gs| - 1] == SpansOf(gs[..|gs| - 1])
  {
  }

  lemma DrawnUpTo(input: string, gs: seq<Ghost>, k: nat)
    requires Anchored(gs, |input|) && k < |gs|
    ensures Anchored(gs[..k], Anchor(gs, k)) && Anchored(gs[..k], gs[k].at) && Anchor(gs, k) <= gs[k].at
    ensures Display(input[..gs[k].at], gs[..k])
      == Display(input[..Anchor(gs, k)], gs[..k]) + input[Anchor(gs, k)..gs[k].at]
  {
    var g, prev := gs[k], Anchor(gs, k);
    assert input[..g.at] == input[..prev] + input[prev..g.at];
    DisplayExtends(input[..prev], input[prev..g.at], gs[..k]);
  }

  lemma SpansStep(input: string, gs: seq<Ghost>, k: nat)
    requires Anchored(gs, |input|) && k < |gs|
    ensures Anchored(gs[..k], gs[k].at)
    ensures var start := |Display(input[..gs[k].at], gs[..k])|;
      SpansOf(gs[..k + 1]) == SpansOf(gs[..k]) + [GhostSpan(start, start + |gs[k].text|, gs[k].key)]
  {
    var upTo := gs[..k + 1];
    assert upTo[..k] == gs[..k];
    LastSpan(input, upTo);
    SpansOfPrefix(upTo, |input|);
    hide Display, Width;
    assert SpansOf(upTo) == SpansOf(upTo)[..k] + [SpansOf(upTo)[k]];
  }

  lemma AnchoredLast(gs: seq<Ghost>, n: nat)
    requires Anchored(gs, n) && gs != []
    ensures var g := gs[|gs| - 1];
      g.at <= n && Anchored(gs[..|gs| - 1], g.at) && Anchored(gs[..|gs| - 1], n)
  {
  }

  lemma DisplayLast(input: string, gs: seq<Ghost>)
    requires Anchored(gs, |input|) && gs != []
    ensures var g := gs[|gs| - 1];
      && g.at <= |input| && Anchored(gs[..|gs| - 1], g.at) && Anchored(gs[..|gs| - 1], |input|)
      && Display(input, gs) == Display(input[..g.at], gs[..|gs| - 1]) + g.text + input[g.at..]
  {
    AnchoredLast(gs, |input|);
    hide Anchored;
  }

  /** A stretch taken out of the middle. */
  lemma TakenOut(a: string, b: string, c: string)
    ensures (a + b + c)[..|a|] + (a + b + c)[|a| + |b|..] == a + c
  {
  }

  lemma EraseLast(s: string, spans: seq<GhostSpan>)
    requires spans != [] && spans[|spans| - 1].start <= spans[|spans| - 1].end <= |s|
    ensures var sp := spans[|spans| - 1];
      EraseSpans(s, spans) == EraseSpans(s[..sp.start] + s[sp.end..], spans[..|spans| - 1])
  {
  }

  lemma SpansLength(gs: seq<Ghost>)
    ensures |SpansOf(gs)| == |gs|
  {
  }

  /** Taking the ghost spans out of the drawn line gives back the line. */
  lemma {:induction false} ErasingGivesInput(input: string, gs: seq<Ghost>)
    requires Anchored(gs, |input|)
    ensures EraseSpans(Display(input, gs), SpansOf(gs)) == input
    decreases |gs|
  {
    if gs != [] {
      hide *;
      var m, g := |gs| - 1, gs[|gs| - 1];
      SpansLength(gs);
      DisplayLast(input, gs);
      LastSpan(input, gs);
      SpansOfPrefix(gs, |input|);
      var before := Display(input[..g.at], gs[..m]);
      TakenOut(before, g.text, input[g.at..]);
      EraseLast(Display(input, gs), SpansOf(gs));
      DisplayExtends(input[..g.at], input[g.at..], gs[..m]);
      Halves(input, g.at);
      ErasingGivesInput(input, gs[..m]);
    }
  }

  /** Where the last ghost puts an offset. */
  lemma DrawnLast(gs: seq<Ghost>, n: nat, o: nat)
    requires Anchored(gs, n) && gs != []
    ensures var (m, g) := (|gs| - 1, gs[|gs| - 1]);
      && (o < g.at ==> Drawn(gs, o + 1) == Drawn(gs[..m], o + 1))
      && (o >= g.at ==> Drawn(gs, o + 1) == o + 1 + Width(gs[..m], g.at + 1) + |g.text|)
  {
    var m, g := |gs| - 1, gs[|gs| - 1];
    if o < g.at {
      WidthUpTo(gs, m, o + 1);
    } else {
      WidthPast(gs[..m], g.at + 1, o + 1);
    }
  }

  lemma CharOf(a: string, b: string, c: string, i: nat)
    requires i < |a| + |b| + |c|
    ensures i < |a| ==> (a + b + c)[i] == a[i]
    ensures i >= |a| + |b| ==> (a + b + c)[i] == c[i - |a| - |b|]
  {
  }

  /** Each character of the line is drawn just before the place the offset after it maps to. */
  lemma {:induction false} CharsInPlace(input: string, gs: seq<Ghost>, o: nat)
    requires Anchored(gs, |input|) && o < |input|
    ensures 0 < Drawn(gs, o + 1) <= |Display(input, gs)| && Display(input, gs)[Drawn(gs, o + 1) - 1] == input[o]
    decreases |gs|
  {
    if gs != [] {
      hide *;
      var m, g := |gs| - 1, gs[|gs| - 1];
      DisplayLast(input, gs);
      DrawnLast(gs, |input|, o);
      DisplayLength(input[..g.at], gs[..m]);
      var before := Display(input[..g.at], gs[..m]);
      if o < g.at {
        CharsInPlace(input[..g.at], gs[..m], o);
      }
      CharOf(before, g.text, input[g.at..], Drawn(gs, o + 1) - 1);
    }
  }

  /** Each span shows its ghost's text. */
  lemma {:induction false} SpansShowGhosts(input: string, gs: seq<Ghost>, i: nat)
    requires Anchored(gs, |input|) && i < |gs|
    ensures var sp := SpansOf(gs)[i];
      && sp.start <= sp.end <= |Display(input, gs)|
      && Display(input, gs)[sp.start..sp.end] == gs[i].text && sp.key == gs[i].key
    decreases |gs|
  {
    var m, g := |gs| - 1, gs[|gs| - 1];
    SpanKeys(gs, i);
    hide *;
    SpansLength(gs);
    DisplayLast(input, gs);
    LastSpan(input, gs);
    var before := Display(input[..g.at], gs[..m]);
    if i < m {
      SpansShowGhosts(input[..g.at], gs[..m], i);
      SpansOfPrefix(gs, |input|);
      assert SpansOf(gs)[..m][i] == SpansOf(gs)[i];
      SliceOf(before, g.text + input[g.at..], SpansOf(gs)[i].start, SpansOf(gs)[i].end);
      assert before + g.text + input[g.at..] == before + (g.text + input[g.at..]);
    } else {
      MiddleOf(before, g.text, input[g.at..]);
    }
  }

  lemma SpanKeys(gs: seq<Ghost>, i: nat)
    requires i < |gs|
    ensures |SpansOf(gs)| == |gs| && SpansOf(gs)[i].key == gs[i].key
  {
  }

  lemma SliceOf(a: string, b: string, i: nat, j: nat)
    requires i <= j <= |a|
    ensures (a + b)[i..j] == a[i..j]
  {
  }

  lemma MiddleOf(a: string, b: string, c: string)
    ensures (a + b + c)[|a|..|a| + |b|] == b
  {
  }

  // ------------------------------------------------------------- the offset maps

  method ToDisplay(gs: seq<Ghost>, off: int) returns (d: int)
    ensures d == Drawn(gs, off)
  {
    d := off;
    for k := 0 to |gs|
      invariant d == Drawn(gs[..k], off)
    {
      assert gs[..k + 1][..k] == gs[..k];
      if gs[k].at < off {
        d := d + |gs[k].text|;
      }
    }
    assert gs[..|gs|] == gs;
  }

  /** The drawn place of an offset and of the next one bracket what maps back to it. */
  lemma Bracketed(gs: seq<Ghost>, off: nat, at: nat)
    requires Drawn(gs, at) <= off < Drawn(gs, at + 1)
    ensures forall o: nat :: Drawn(gs, o) <= off <==> o <= at
  {
    forall o: nat
      ensures Drawn(gs, o) <= off <==> o <= at
    {
      if o <= at {
        WidthMonotone(gs, o, at);
      } else {
        WidthMonotone(gs, at + 1, o);
      }
    }
  }

  /** The width at an offset that has the first k ghosts, and no others, before it. */
  lemma WidthBetween(gs: seq<Ghost>, n: nat, k: nat, off: int)
    requires Anchored(gs, n) && k <= |gs|
    requires k > 0 ==> gs[k - 1].at < off
    requires k < |gs| ==> off <= gs[k].at
    ensures Width(gs, off) == Width(gs[..k], n + 1)
  {
    WidthUpTo(gs, k, off);
    WidthPast(gs[..k], off, n + 1);
  }

  /** toInput from ghost k on, when the ghosts before it take up shift. */
  function UndrawnFrom(gs: seq<Ghost>, k: nat, shift: nat, off: int): int
    decreases |gs| - k
  {
    if k >= |gs| || off < gs[k].at + shift then (if off < shift then 0 else off - shift)
    else if off < gs[k].at + shift + |gs[k].text| then gs[k].at
    else UndrawnFrom(gs, k + 1, shift + |gs[k].text|, off)
  }

  /** toInput. */
  function Undrawn(gs: seq<Ghost>, off: int): int {
    UndrawnFrom(gs, 0, 0, off)
  }

  /** The ghost at k, in the drawn line. */
  lemma GhostDrawn(gs: seq<Ghost>, n: nat, k: nat)
    requires Anchored(gs, n) && k < |gs|
    ensures Drawn(gs, gs[k].at) == gs[k].at + Width(gs[..k], n + 1)
    ensures Drawn(gs, gs[k].at + 1) == gs[k].at + 1 + Width(gs[..k], n + 1) + |gs[k].text|
    ensures Width(gs[..k + 1], n + 1) == Width(gs[..k], n + 1) + |gs[k].text|
  {
    WidthBetween(gs, n, k, gs[k].at);
    WidthBetween(gs, n, k + 1, gs[k].at + 1);
    assert gs[..k + 1][..k] == gs[..k];
  }

  lemma {:induction false} UndrawnIsAdjoint(gs: seq<Ghost>, n: nat, k: nat, off: nat)
    requires Anchored(gs, n) && k <= |gs|
    requires k > 0 ==> gs[k - 1].at + Width(gs[..k], n + 1) <= off
    ensures var at := UndrawnFrom(gs, k, Width(gs[..k], n + 1), off);
      at >= 0 && forall o: nat :: Drawn(gs, o) <= off <==> o <= at
    decreases |gs| - k
  {
    var shift := Width(gs[..k], n + 1);
    hide *;
    if k == |gs| || off < gs[k].at + shift {
      UndrawnStops(gs, n, k, off);
    } else {
      UndrawnStep(gs, k, shift, off);
      GhostDrawn(gs, n, k);
      if off < gs[k].at + shift + |gs[k].text| {
        Bracketed(gs, off, gs[k].at);
      } else {
        UndrawnIsAdjoint(gs, n, k + 1, off);
      }
    }
  }

  lemma UndrawnStep(gs: seq<Ghost>, k: nat, shift: nat, off: nat)
    requires k < |gs| && gs[k].at + shift <= off
    ensures UndrawnFrom(gs, k, shift, off)
      == if off < gs[k].at + shift + |gs[k].text| then gs[k].at else UndrawnFrom(gs, k + 1, shift + |gs[k].text|, off)
  {
  }

  /** Before the next ghost. */
  lemma UndrawnStops(gs: seq<Ghost>, n: nat, k: nat, off: nat)
    requires Anchored(gs, n) && k <= |gs|
    requires k > 0 ==> gs[k - 1].at + Width(gs[..k], n + 1) <= off
    requires k == |gs| || off < gs[k].at + Width(gs[..k], n + 1)
    ensures var at := UndrawnFrom(gs, k, Width(gs[..k], n + 1), off);
      at >= 0 && forall o: nat :: Drawn(gs, o) <= off <==> o <= at
  {
    var shift := Width(gs[..k], n + 1);
    var at := if off < shift then 0 else off - shift;
    assert k == 0 ==> gs[..k] == [];
    WidthBetween(gs, n, k, at + 1);
    WidthMonotone(gs, at, at + 1);
    hide Width, Anchored;
    Bracketed(gs, off, at);
  }

  /** toInput is the upper adjoint of toDisplay. */
  lemma AdjointMaps(gs: seq<Ghost>, n: nat, off: nat)
    requires Anchored(gs, n)
    ensures Undrawn(gs, off) >= 0 && forall o: nat :: Drawn(gs, o) <= off <==> o <= Undrawn(gs, off)
  {
    assert gs[..0] == [];
    UndrawnIsAdjoint(gs, n, 0, off);
  }

  /** toInput undoes toDisplay: a click on the place an offset is drawn at goes back to it. */
  lemma ThereAndBack(gs: seq<Ghost>, n: nat, o: nat)
    requires Anchored(gs, n)
    ensures Undrawn(gs, Drawn(gs, o)) == o
  {
    var d := Drawn(gs, o);
    var at := Undrawn(gs, d);
    WidthMonotone(gs, 0, o);
    AdjointMaps(gs, n, d);
    hide Undrawn;
    assert Drawn(gs, o) <= d && Drawn(gs, at) <= d;
    WidthMonotone(gs, o, at);
  }

  method ToInput(gs: seq<Ghost>, off: int, n: nat) returns (at: int)
    requires Anchored(gs, n)
    ensures at == Undrawn(gs, off)
    ensures off >= 0 ==> at >= 0 && forall o: nat :: Drawn(gs, o) <= off <==> o <= at
  {
    if off >= 0 { AdjointMaps(gs, n, off); }
    hide Drawn, Anchored;
    var shift: nat := 0;
    for k := 0 to |gs|
      invariant UndrawnFrom(gs, k, shift, off) == Undrawn(gs, off)
    {
      var g := gs[k];
      var gStart := g.at + shift;
      if off < gStart {
        break;
      }
      if off < gStart + |g.text| {
        return g.at;
      }
      shift := shift + |g.text|;
    }
    at := off - shift;
    if at < 0 {
      at := 0;
    }
  }

  // ------------------------------------------------------------- accepting

  /** The ghosts Tab takes: placeholders are not text. */
  function Acceptable(gs: seq<Ghost>): seq<Ghost> {
    if gs == [] then []
    else Acceptable(gs[..|gs| - 1]) + if gs[|gs| - 1].placeholder then [] else [gs[|gs| - 1]]
  }

  /** How many of the ghosts are anchored at or before c. */
  function Before(gs: seq<Ghost>, c: int): (k: nat)
    ensures k <= |gs|
  {
    if gs == [] then 0
    else if gs[|gs| - 1].at <= c then |gs|
    else Before(gs[..|gs| - 1], c)
  }

  /** The ghosts as anchored in the text from c on. */
  function Rebased(gs: seq<Ghost>, c: nat): (r: seq<Ghost>)
    ensures |r| == |gs|
  {
    seq(|gs|, i requires 0 <= i < |gs| => gs[i].(at := if gs[i].at < c then 0 else gs[i].at - c))
  }

  lemma {:induction false} AcceptableIs(gs: seq<Ghost>)
    ensures forall g :: g in Acceptable(gs) <==> g in gs && !g.placeholder
  {
    if gs != [] {
      var m := |gs| - 1;
      AcceptableIs(gs[..m]);
      assert gs == gs[..m] + [gs[m]];
    }
  }

  lemma LaterAnchored(gs: seq<Ghost>, a: seq<Ghost>, g: Ghost)
    requires forall x :: x in a ==> x in gs
    requires forall i :: 0 <= i < |gs| ==> gs[i].at < g.at
    ensures forall i :: 0 <= i < |a| ==> a[i].at < g.at
  {
    forall i | 0 <= i < |a| ensures a[i].at < g.at {
      assert a[i] in a;
    }
  }

  lemma {:induction false} AcceptableAnchored(gs: seq<Ghost>, n: nat)
    requires Anchored(gs, n)
    ensures Anchored(Acceptable(gs), n)
  {
    if gs != [] {
      var most, last := gs[..|gs| - 1], gs[|gs| - 1];
      assert Acceptable(gs) == Acceptable(most) + if last.placeholder then [] else [last];
      assert Anchored(most, n) && last.at <= n && last.text != "";
      assert forall i :: 0 <= i < |most| ==> most[i].at < last.at;
      hide Acceptable, Anchored;
      AcceptableAnchored(most, n);
      AcceptableIs(most);
      LaterAnchored(most, Acceptable(most), last);
      AnchoredSnoc(Acceptable(most), last, n);
    }
  }

  lemma AnchoredSnoc(gs: seq<Ghost>, g: Ghost, n: nat)
    requires Anchored(gs, n) && g.at <= n && g.text != "" && forall i :: 0 <= i < |gs| ==> gs[i].at < g.at
    ensures Anchored(gs + [g], n) && Anchored(gs + [], n)
  {
    assert gs + [] == gs;
  }

  lemma {:induction false} BeforeIs(gs: seq<Ghost>, n: nat, c: int)
    requires Anchored(gs, n)
    ensures forall i :: 0 <= i < Before(gs, c) ==> gs[i].at <= c
    ensures forall i :: Before(gs, c) <= i < |gs| ==> gs[i].at > c
  {
    if gs != [] && gs[|gs| - 1].at > c {
      var most := gs[..|gs| - 1];
      assert Anchored(most, n) && Before(gs, c) == Before(most, c);
      BeforeIs(most, n, c);
      hide Before;
      assert forall i :: 0 <= i < |most| ==> gs[i] == most[i];
    }
  }

  lemma BeforeSplits(gs: seq<Ghost>, n: nat, c: int)
    requires Anchored(gs, n)
    ensures forall i :: 0 <= i < Before(gs, c) ==> gs[i].at <= c
    ensures forall i :: Before(gs, c) <= i < |gs| ==> gs[i].at > c
    ensures Width(gs, c + 1) == Width(gs[..Before(gs, c)], n + 1)
  {
    BeforeIs(gs, n, c);
    hide Anchored, Width, Before;
    WidthBetween(gs, n, Before(gs, c), c + 1);
  }

  ghost predicate Splits(input: string, gs: seq<Ghost>, c: nat, k: nat) {
    && k <= |gs| && c <= |input|
    && Anchored(gs, |input|)
    && Anchored(gs[..k], c)
    && (forall i :: k <= i < |gs| ==> gs[i].at > c)
    && Anchored(Rebased(gs[k..], c), |input| - c)
    && Display(input, gs) == Display(input[..c], gs[..k]) + Display(input[c..], Rebased(gs[k..], c))
  }

  /** One more ghost, at the end of s, and more text after it. */
  lemma DisplayGrows(s: string, gs: seq<Ghost>, g: Ghost, more: string)
    requires Anchored(gs, |s|) && Anchored(gs + [g], |s|) && g.at == |s|
    ensures Anchored(gs + [g], |s + more|)
    ensures Display(s + more, gs + [g]) == Display(s, gs) + g.text + more
  {
    assert (gs + [g])[..|gs|] == gs;
    assert (s + more)[..|s|] == s && (s + more)[|s|..] == more;
  }

  /** The text the first m ghosts are drawn in goes up to the next one. */
  function Upto(input: string, gs: seq<Ghost>, m: nat): nat
    requires m <= |gs|
  {
    if m < |gs| then gs[m].at else |input|
  }

  lemma LateAnchored(gs: seq<Ghost>, n: nat, c: nat)
    requires Anchored(gs, n) && c <= n
    ensures var k := Before(gs, c);
      Anchored(gs[..k], c) && (forall i :: k <= i < |gs| ==> gs[i].at > c) && Anchored(Rebased(gs[k..], c), n - c)
  {
    BeforeSplits(gs, n, c);
  }

  /** A ghost and some text more on both sides. */
  lemma SplitsStep(
    left: string, s: string, gs: seq<Ghost>, g: Ghost, s': string, gs': seq<Ghost>, g': Ghost, more: string)
    requires Anchored(gs, |s|) && Anchored(gs + [g], |s|) && g.at == |s|
    requires Anchored(gs', |s'|) && Anchored(gs' + [g'], |s'|) && g'.at == |s'| && g'.text == g.text
    requires Display(s, gs) == left + Display(s', gs')
    ensures Anchored(gs + [g], |s + more|) && Anchored(gs' + [g'], |s' + more|)
    ensures Display(s + more, gs + [g]) == left + Display(s' + more, gs' + [g'])
  {
    DisplayGrows(s, gs, g, more);
    DisplayGrows(s', gs', g', more);
    hide *;
    Reassociated(left, Display(s', gs'), g.text, more);
  }

  lemma Reassociated(a: string, b: string, c: string, d: string)
    ensures (a + b) + c + d == a + (b + c + d)
  {
  }

  /** What SplitsUpTo says, of the text up to t. */
  ghost predicate SplitAt(input: string, gs: seq<Ghost>, c: nat, k: nat, m: nat, t: nat) {
    && c <= t <= |input| && k <= m <= |gs|
    && Anchored(gs[..k], c) && Anchored(gs[..m], t) && Anchored(Rebased(gs[k..m], c), t - c)
    && Display(input[..t], gs[..m]) == Display(input[..c], gs[..k]) + Display(input[c..t], Rebased(gs[k..m], c))
  }

  lemma SplitStarts(input: string, gs: seq<Ghost>, c: nat, k: nat, t: nat)
    requires c <= t <= |input| && k <= |gs| && Anchored(gs[..k], c)
    ensures SplitAt(input, gs, c, k, k, t)
  {
    assert input[..t] == input[..c] + input[c..t];
    DisplayExtends(input[..c], input[c..t], gs[..k]);
    assert Rebased(gs[k..k], c) == [];
  }

  lemma SplitGoesOn(input: string, gs: seq<Ghost>, c: nat, k: nat, m: nat, t: nat)
    requires k <= m < |gs| && gs[m].at <= t <= |input| && gs[m].at > c
    requires SplitAt(input, gs, c, k, m, gs[m].at)
    requires Anchored(gs[..m + 1], gs[m].at) && Anchored(Rebased(gs[k..m + 1], c), gs[m].at - c)
    ensures SplitAt(input, gs, c, k, m + 1, t)
  {
    hide *;
    SplitsLater(input, gs, c, k, m, input[gs[m].at..t]);
    SplitRewritten(input, gs, c, k, m, t);
  }

  /** The step, with the text and the ghosts put together. */
  lemma SplitsLater(input: string, gs: seq<Ghost>, c: nat, k: nat, m: nat, more: string)
    requires k <= m < |gs| && c < gs[m].at <= |input|
    requires SplitAt(input, gs, c, k, m, gs[m].at)
    requires Anchored(gs[..m + 1], gs[m].at) && Anchored(Rebased(gs[k..m + 1], c), gs[m].at - c)
    ensures Joins(input, gs, c, k, m, more)
  {
    hide *;
    SplitFacts(input, gs, c, k, m, gs[m].at);
    OneMore(gs, c, k, m);
    var g, at := gs[m], gs[m].at;
    assert |input[..at]| == at && |input[c..at]| == at - c;
    SplitsStep(Display(input[..c], gs[..k]), input[..at], gs[..m], g,
               input[c..at], Rebased(gs[k..m], c), g.(at := at - c), more);
    AreJoined(input, gs, c, k, m, more);
  }

  lemma AreJoined(input: string, gs: seq<Ghost>, c: nat, k: nat, m: nat, more: string)
    requires k <= m < |gs| && c < gs[m].at <= |input| && Anchored(gs[..k], c)
    requires var (g, at) := (gs[m], gs[m].at);
      var early, late := gs[..m] + [g], Rebased(gs[k..m], c) + [g.(at := at - c)];
      && Anchored(early, |input[..at] + more|) && Anchored(late, |input[c..at] + more|)
      && Display(input[..at] + more, early) == Display(input[..c], gs[..k]) + Display(input[c..at] + more, late)
    ensures Joins(input, gs, c, k, m, more)
  {
    hide Display, Anchored, Rebased;
  }

  ghost predicate Joins(input: string, gs: seq<Ghost>, c: nat, k: nat, m: nat, more: string)
    requires k <= m < |gs| && c < gs[m].at <= |input|
  {
    var g, at := gs[m], gs[m].at;
    var early, late := gs[..m] + [g], Rebased(gs[k..m], c) + [g.(at := at - c)];
    && Anchored(gs[..k], c)
    && Anchored(early, |input[..at] + more|) && Anchored(late, |input[c..at] + more|)
    && Display(input[..at] + more, early) == Display(input[..c], gs[..k]) + Display(input[c..at] + more, late)
  }

  lemma SplitRewritten(input: string, gs: seq<Ghost>, c: nat, k: nat, m: nat, t: nat)
    requires k <= m < |gs| && c < gs[m].at <= t <= |input|
    requires Joins(input, gs, c, k, m, input[gs[m].at..t])
    ensures SplitAt(input, gs, c, k, m + 1, t)
  {
    OneMore(gs, c, k, m);
    PartsJoin(input, c, gs[m].at, t);
    hide Display, Anchored, Rebased;
  }

  lemma SplitFacts(input: string, gs: seq<Ghost>, c: nat, k: nat, m: nat, t: nat)
    requires SplitAt(input, gs, c, k, m, t)
    ensures c <= t <= |input| && k <= m <= |gs|
    ensures Anchored(gs[..k], c) && Anchored(gs[..m], t) && Anchored(Rebased(gs[k..m], c), t - c)
    ensures Display(input[..t], gs[..m]) == Display(input[..c], gs[..k]) + Display(input[c..t], Rebased(gs[k..m], c))
  {
    hide Display, Anchored, Rebased;
  }

  lemma OneMore(gs: seq<Ghost>, c: nat, k: nat, m: nat)
    requires k <= m < |gs| && gs[m].at >= c
    ensures gs[..m + 1] == gs[..m] + [gs[m]]
    ensures Rebased(gs[k..m + 1], c) == Rebased(gs[k..m], c) + [gs[m].(at := gs[m].at - c)]
  {
  }

  lemma PartsJoin(s: string, c: nat, a: nat, b: nat)
    requires c <= a <= b <= |s|
    ensures s[..a] + s[a..b] == s[..b] && s[c..a] + s[a..b] == s[c..b]
    ensures |s[..a]| == a && |s[c..a]| == a - c && |s[..b]| == b && |s[c..b]| == b - c
  {
  }

  /** Up to any later ghost, the drawn line is what is drawn of the two halves. */
  lemma {:induction false} SplitsUpTo(input: string, gs: seq<Ghost>, c: nat, m: nat)
    requires Anchored(gs, |input|) && c <= |input| && Before(gs, c) <= m <= |gs|
    ensures SplitAt(input, gs, c, Before(gs, c), m, Upto(input, gs, m))
    decreases m
  {
    hide *;
    if m == Before(gs, c) {
      FirstUpto(input, gs, c);
      SplitStarts(input, gs, c, m, Upto(input, gs, m));
    } else {
      SplitsUpTo(input, gs, c, m - 1);
      NextUpto(input, gs, c, m - 1);
      SplitGoesOn(input, gs, c, Before(gs, c), m - 1, Upto(input, gs, m));
    }
  }

  lemma FirstUpto(input: string, gs: seq<Ghost>, c: nat)
    requires Anchored(gs, |input|) && c <= |input|
    ensures c <= Upto(input, gs, Before(gs, c)) <= |input| && Anchored(gs[..Before(gs, c)], c)
  {
    BeforeSplits(gs, |input|, c);
  }

  lemma NextUpto(input: string, gs: seq<Ghost>, c: nat, m: nat)
    requires Anchored(gs, |input|) && Before(gs, c) <= m < |gs|
    ensures c < gs[m].at == Upto(input, gs, m) <= Upto(input, gs, m + 1) <= |input|
    ensures Anchored(gs[..m + 1], gs[m].at) && Anchored(Rebased(gs[Before(gs, c)..m + 1], c), gs[m].at - c)
  {
    BeforeIs(gs, |input|, c);
    hide Before;
  }

  /** The drawn line splits at an offset into what is drawn of the two halves. */
  lemma DisplaySplits(input: string, gs: seq<Ghost>, c: nat)
    requires Anchored(gs, |input|) && c <= |input|
    ensures Splits(input, gs, c, Before(gs, c))
  {
    hide *;
    SplitsUpTo(input, gs, c, |gs|);
    UptoEnd(input, gs);
    SplitFacts(input, gs, c, Before(gs, c), |gs|, |input|);
    LateAnchored(gs, |input|, c);
    assert input[..|input|] == input && gs[..|gs|] == gs;
    assert gs[Before(gs, c)..|gs|] == gs[Before(gs, c)..] && input[c..|input|] == input[c..];
    IsSplits(input, gs, c, Before(gs, c));
  }

  lemma UptoEnd(input: string, gs: seq<Ghost>)
    ensures Upto(input, gs, |gs|) == |input|
  {
  }

  lemma IsSplits(input: string, gs: seq<Ghost>, c: nat, k: nat)
    requires k <= |gs| && c <= |input| && Anchored(gs, |input|) && Anchored(gs[..k], c)
    requires forall i :: k <= i < |gs| ==> gs[i].at > c
    requires Anchored(Rebased(gs[k..], c), |input| - c)
    requires Display(input, gs) == Display(input[..c], gs[..k]) + Display(input[c..], Rebased(gs[k..], c))
    ensures Splits(input, gs, c, k)
  {
    hide Display, Anchored, Rebased;
  }

  lemma NoGhosts(input: string, c: int)
    ensures Anchored([], |input|) && Display(input, []) == input && Width([], c + 1) == 0 && KeysOf([]) == {}
  {
  }

  lemma CursorInside(input: string, gs: seq<Ghost>, c: nat)
    requires Anchored(gs, |input|) && c <= |input|
    ensures c + Width(gs, c + 1) <= |Display(input, gs)|
  {
    DisplayLength(input, gs);
    WidthMonotone(gs, c + 1, |input| + 1);
  }

  const NO_PREVIEW_TEXT := "no preview available"

  /** alreadyOffered: the text, bar a leading space, is in the line already. */
  predicate AlreadyOffered(line: string, text: string) {
    Index(line, if " " <= text then text[1..] else text).Some?
  }

  /** Somewhere in the line. */
  ghost predicate Occurs(line: string, text: string) {
    exists n :: 0 <= n <= |line| && text <= line[n..]
  }

  lemma OfferedIff(line: string, text: string)
    ensures AlreadyOffered(line, text)
       <==> Occurs(line, if text != "" && text[0] == ' ' then text[1..] else text)
  {
    assert " " <= text <==> text != "" && text[0] == ' ';
  }

  /** Accepted text is in the line from then on, so that it is not offered again. */
  lemma AcceptedIsOffered(input: string, gs: seq<Ghost>, i: nat)
    requires Anchored(gs, |input|) && i < |gs|
    ensures AlreadyOffered(Display(input, gs), gs[i].text)
  {
    var shown, sp, text := Display(input, gs), SpansOf(gs)[i], gs[i].text;
    SpansShowGhosts(input, gs, i);
    hide Display, SpansOf, Anchored;
    assert text <= shown[sp.start..];
    var n := if " " <= text then 1 else 0;
    assert text[n..] <= shown[sp.start + n..];
    assert text[0..] == text;
  }

  /** URLs of a line of n characters, in order. */
  predicate UrlsOf(urls: seq<UrlSpan>, n: nat) {
    && (forall i :: 0 <= i < |urls| ==> urls[i].start < urls[i].end <= n)
    && (forall i, j :: 0 <= i < j < |urls| ==> urls[i].end < urls[j].end)
  }

  function GhostAt(u: UrlSpan, summary: string): (g: Ghost)
    ensures g.at == u.end && g.text != "" && g.key == u.key && (g.placeholder <==> summary == "")
    ensures g.text == if summary == "" then " (no preview available)" else " (" + summary + ")"
  {
    if summary == "" then Ghost(u.end, " (" + NO_PREVIEW_TEXT + ")", u.key, true)
    else Ghost(u.end, " (" + summary + ")", u.key, false)
  }

  lemma OffersIff(line: string, u: UrlSpan, summary: string)
    ensures AlreadyOffered(line, GhostAt(u, summary).text)
       <==> Occurs(line, "(" + (if summary == "" then "no preview available" else summary) + ")")
  {
    var text := GhostAt(u, summary).text;
    OfferedIff(line, text);
    assert text[1..] == "(" + (if summary == "" then "no preview available" else summary) + ")";
  }

  function KeysOf(gs: seq<Ghost>): (keys: set<PreviewKey>)
    ensures forall k :: k in keys <==> exists g :: g in gs && g.key == k
  {
    set g | g in gs :: g.key
  }

  /** acceptPreviews' first loop. */
  method WithoutPlaceholders(shown: seq<Ghost>) returns (gs: seq<Ghost>)
    ensures gs == Acceptable(shown)
  {
    gs := [];
    for k := 0 to |shown|
      invariant gs == Acceptable(shown[..k])
    {
      assert shown[..k + 1][..k] == shown[..k];
      if !shown[k].placeholder {
        gs := gs + [shown[k]];
      }
    }
    assert shown[..|shown|] == shown;
  }

  /** acceptPreviews' second loop. */
  method Splice(input: string, at: nat, gs: seq<Ghost>) returns (value: string, cursor: nat)
    requires at <= |input| && Anchored(gs, |input|)
    ensures value == Display(input, gs)
    ensures cursor == at + Width(gs, at + 1) <= |value|
  {
    value, cursor := "", at;
    var prev := 0;
    NoGhosts(input[..0], at);
    CursorInside(input, gs, at);
    assert gs[..0] == [] && gs[..|gs|] == gs;
    hide Anchored, Display;
    for k := 0 to |gs|
      invariant prev == Anchor(gs, k) <= |input| && Anchored(gs[..k], prev)
      invariant value == Display(input[..prev], gs[..k])
      invariant cursor == at + Width(gs[..k], at + 1)
    {
      var g := gs[k];
      DisplayStep(input, gs, k);
      assert gs[..k + 1][..k] == gs[..k];
      value := value + input[prev..g.at];
      value := value + g.text;
      if at >= g.at {
        cursor := cursor + |g.text|;
      }
      prev := g.at;
    }
    DisplayEnd(input, gs);
    value := value + input[prev..];
  }

  /** The line and cursor after gs are spliced in. */
  ghost predicate Spliced(gs: seq<Ghost>, was: string, at: nat, now: string, cursor: nat) {
    Anchored(gs, |was|) && now == Display(was, gs) && cursor == at + Width(gs, at + 1)
  }

  /** The input line of the terminal client, as far as previews go. */
  class InputLine {
    var inputValue: string
    var inputCursor: nat
    var linkPreviewOn: bool
    var linkPreviewCache: map<string, string>
    var linkPreviewDismissed: set<PreviewKey>

    ghost predicate Valid()
      reads this
    {
      inputCursor <= |inputValue|
    }

    /** A summary has come back for this URL, it was not dismissed, and the text it would show is not in
        the line. */
    predicate Offers(u: UrlSpan): (offers: bool)
      reads this
      ensures offers <==>
        && u.key.url in linkPreviewCache && u.key !in linkPreviewDismissed
        && var summary := linkPreviewCache[u.key.url];
           !Occurs(inputValue, "(" + (if summary == "" then "no preview available" else summary) + ")")
    {
      OffersIff(inputValue, u, if u.key.url in linkPreviewCache then linkPreviewCache[u.key.url] else "");
      && u.key.url in linkPreviewCache && u.key !in linkPreviewDismissed
      && !AlreadyOffered(inputValue, GhostAt(u, linkPreviewCache[u.key.url]).text)
    }

    /** ghosts: they come in order, with text, inside the line; one for each URL that has come
        back, is not dismissed and is not in the line already. */
    method Ghosts(urls: seq<UrlSpan>) returns (gs: seq<Ghost>)
      requires UrlsOf(urls, |inputValue|)
      ensures Anchored(gs, |inputValue|)
      ensures forall g :: g in gs <==>
        (linkPreviewOn &&
         exists i :: 0 <= i < |urls| && Offers(urls[i]) && g == GhostAt(urls[i], linkPreviewCache[urls[i].key.url]))
    {
      hide AlreadyOffered, GhostAt;
      gs := [];
      if !linkPreviewOn || |linkPreviewCache| == 0 || inputValue == "" {
        return;
      }
      for k := 0 to |urls|
        invariant |gs| <= k && Anchored(gs, if k == 0 then 0 else urls[k - 1].end)
        invariant forall g :: g in gs <==>
          exists i :: 0 <= i < k && Offers(urls[i]) && g == GhostAt(urls[i], linkPreviewCache[urls[i].key.url])
      {
        var u := urls[k];
        if u.key.url in linkPreviewCache && u.key !in linkPreviewDismissed {
          var g := GhostAt(u, linkPreviewCache[u.key.url]);
          if !AlreadyOffered(inputValue, g.text) {
            gs := gs + [g];
          }
        }
      }
    }

    /** dismissPreviewAtCursor: one ghost goes, the one anchored at the cursor. */
    method DismissAtCursor(gs: seq<Ghost>) returns (ok: bool)
      modifies this`linkPreviewDismissed
      ensures ok <==> exists i :: 0 <= i < |gs| && gs[i].at == inputCursor
      ensures !ok ==> linkPreviewDismissed == old(linkPreviewDismissed)
      ensures ok ==>
        exists i :: 0 <= i < |gs| && gs[i].at == inputCursor &&
                    linkPreviewDismissed == old(linkPreviewDismissed) + {gs[i].key}
    {
      for k := 0 to |gs|
        invariant forall j :: 0 <= j < k ==> gs[j].at != inputCursor
        invariant linkPreviewDismissed == old(linkPreviewDismissed)
      {
        if gs[k].at == inputCursor {
          linkPreviewDismissed := linkPreviewDismissed + {gs[k].key};
          return true;
        }
      }
      return false;
    }

    /** inputDisplay: the drawn line, and where the ghosts are in it. */
    method InputDisplay(gs: seq<Ghost>) returns (shown: string, spans: seq<GhostSpan>)
      requires Anchored(gs, |inputValue|)
      ensures shown == Display(inputValue, gs)
      ensures spans == SpansOf(gs)
    {
      if |gs| == 0 {
        return inputValue, [];
      }
      shown, spans := "", [];
      var prev := 0;
      for k := 0 to |gs|
        invariant prev == Anchor(gs, k) <= |inputValue| && Anchored(gs[..k], prev)
        invariant shown == Display(inputValue[..prev], gs[..k])
        invariant spans == SpansOf(gs[..k])
      {
        var g := gs[k];
        DisplayStep(inputValue, gs, k);
        SpansStep(inputValue, gs, k);
        DrawnUpTo(inputValue, gs, k);
        hide Display, SpansOf, Anchored;
        shown := shown + inputValue[prev..g.at];
        spans := spans + [GhostSpan(|shown|, |shown| + |g.text|, g.key)];
        shown := shown + g.text;
        prev := g.at;
      }
      assert gs[..|gs|] == gs;
      DisplayEnd(inputValue, gs);
      shown := shown + inputValue[prev..];
    }

    /** acceptPreviews: the line becomes the line drawn with the accepted ghosts, and the cursor
        stays at the same place in the text, after what was accepted there. */
    method AcceptPreviews(shownGhosts: seq<Ghost>) returns (ok: bool)
      requires Valid() && Anchored(shownGhosts, |inputValue|)
      modifies this`inputValue, this`inputCursor, this`linkPreviewDismissed
      ensures Valid()
      ensures ok <==> Acceptable(shownGhosts) != []
      ensures var gs := Acceptable(shownGhosts);
        && Anchored(gs, |old(inputValue)|) && inputValue == Display(old(inputValue), gs)
        && inputCursor == old(inputCursor) + Width(gs, old(inputCursor) + 1)
        && linkPreviewDismissed == old(linkPreviewDismissed) + KeysOf(gs)
    {
      AcceptableAnchored(shownGhosts, |inputValue|);
      var gs := WithoutPlaceholders(shownGhosts);
      ok := |gs| > 0;
      if ok {
        hide *;
        AcceptSome(gs);
      } else {
        NoGhosts(inputValue, inputCursor);
      }
    }

    method AcceptSome(gs: seq<Ghost>)
      requires Valid() && Anchored(gs, |inputValue|)
      modifies this`inputValue, this`inputCursor, this`linkPreviewDismissed
      ensures Valid()
      ensures Spliced(gs, old(inputValue), old(inputCursor), inputValue, inputCursor)
      ensures linkPreviewDismissed == old(linkPreviewDismissed) + KeysOf(gs)
    {
      hide Anchored, Display, Width, KeysOf;
      inputValue, inputCursor := Splice(inputValue, inputCursor, gs);
      SuppressAll(gs);
    }

    /** suppressAll. */
    method SuppressAll(gs: seq<Ghost>)
      modifies this`linkPreviewDismissed
      ensures linkPreviewDismissed == old(linkPreviewDismissed) + KeysOf(gs)
    {
      for k := 0 to |gs|
        invariant linkPreviewDismissed == old(linkPreviewDismissed) + KeysOf(gs[..k])
      {
        assert gs[..k + 1] == gs[..k] + [gs[k]];
        linkPreviewDismissed := linkPreviewDismissed + {gs[k].key};
      }
    }
  }

  /** Around the new cursor: before it the text before the old one with what was accepted there,
      after it the text after the old one with the ghosts anchored later. */
  lemma CursorKeepsItsPlace(input: string, cursor: nat, gs: seq<Ghost>)
    requires Anchored(gs, |input|) && cursor <= |input|
    ensures var (k, at) := (Before(gs, cursor), cursor + Width(gs, cursor + 1));
      && Splits(input, gs, cursor, k)
      && at <= |Display(input, gs)|
      && Display(input, gs)[..at] == Display(input[..cursor], gs[..k])
      && Display(input, gs)[at..] == Display(input[cursor..], Rebased(gs[k..], cursor))
  {
    var k := Before(gs, cursor);
    DisplaySplits(input, gs, cursor);
    DisplayLength(input[..cursor], gs[..k]);
    BeforeSplits(gs, |input|, cursor);
    WidthPast(gs[..k], cursor + 1, |input| + 1);
  }
}
