/** Word wrapping (internal/tui/ui/format.go, wrapTextCore and splitWords). */
module TextWrap {
  import opened Text

  /** A stretch of output: plain, or an OSC 8 hyperlink that shows s. */
  datatype Piece = Plain(s: string) | Link(target: string, id: nat, s: string)

  /** What the terminal shows. */
  function Erase(ps: seq<Piece>): string {
    if ps == [] then "" else Erase(ps[..|ps| - 1]) + ps[|ps| - 1].s
  }

  lemma {:induction false} EraseConcat(a: seq<Piece>, b: seq<Piece>)
    ensures Erase(a + b) == Erase(a) + Erase(b)
    decreases |b|
  {
    if b == [] {
      assert a + b == a;
    } else {
      assert (a + b)[..|a + b| - 1] == a + b[..|b| - 1];
      EraseConcat(a, b[..|b| - 1]);
    }
  }

  /** A character shown as part of a link, with the link's target and id. */
  datatype Hot = Hot(c: char, target: string, id: nat)

  function HotText(s: string, target: string, id: nat): (r: seq<Hot>) {
    seq(|s|, i requires 0 <= i < |s| => Hot(s[i], target, id))
  }

  /** The linked characters of some pieces, in order, and those of some lines. */
  function Hots(ps: seq<Piece>): seq<Hot> {
    if ps == [] then [] else
      var n := |ps| - 1;
      Hots(ps[..n]) + if ps[n].Link? then HotText(ps[n].s, ps[n].target, ps[n].id) else []
  }

  function LineHots(lines: seq<seq<Piece>>): seq<Hot> {
    if lines == [] then [] else LineHots(lines[..|lines| - 1]) + Hots(lines[|lines| - 1])
  }

  lemma HotsSnoc(ps: seq<Piece>, p: Piece)
    ensures Hots(ps + [p]) == Hots(ps) + if p.Link? then HotText(p.s, p.target, p.id) else []
    ensures Erase(ps + [p]) == Erase(ps) + p.s
  {
    assert (ps + [p])[..|ps|] == ps;
  }

  lemma {:induction false} HotsConcat(a: seq<Piece>, b: seq<Piece>)
    ensures Hots(a + b) == Hots(a) + Hots(b)
    decreases |b|
  {
    hide *;
    if b == [] {
      NoHots(a, b);
    } else {
      HotsConcat(a, b[..|b| - 1]);
      ConcatStep(a, b[..|b| - 1], b[|b| - 1]);
      assert b == b[..|b| - 1] + [b[|b| - 1]];
    }
  }

  lemma NoHots(a: seq<Piece>, b: seq<Piece>)
    requires b == []
    ensures a + b == a && Hots(b) == [] && Hots(a) + [] == Hots(a)
  {
  }

  lemma ConcatStep(a: seq<Piece>, init: seq<Piece>, last: Piece)
    requires Hots(a + init) == Hots(a) + Hots(init)
    ensures Hots(a + (init + [last])) == Hots(a) + Hots(init + [last])
  {
    hide *;
    assert a + (init + [last]) == (a + init) + [last];
    HotsSnoc(a + init, last);
    HotsSnoc(init, last);
  }

  // ------------------------------------------------------------- words and gaps

  function Spaces(n: nat): (s: string)
    ensures |s| == n
  {
    seq(n, _ => ' ')
  }

  /** Every whitespace character shown as one space. */
  function Blanked(s: string): (r: string)
    ensures |r| == |s|
  {
    seq(|s|, i requires 0 <= i < |s| => if IsSpace(s[i]) then ' ' else s[i])
  }

  /** splitWords after some of the text: the words ended, the gap before each word begun, the
      whitespace since the last word, and the word under way. */
  datatype Scan = Scan(words: seq<string>, gaps: seq<string>, lead: nat, gap: nat, word: string)

  function ScanChar(s: Scan, c: char): Scan {
    if IsSpace(c) then
      if s.word != "" then s.(words := s.words + [s.word], word := "", gap := s.gap + 1)
      else s.(gap := s.gap + 1)
    else if s.word != "" then s.(word := s.word + [c])
    else if s.words == [] then s.(gaps := s.gaps + [""], lead := s.gap, gap := 0, word := [c])
    else s.(gaps := s.gaps + [Spaces(s.gap)], gap := 0, word := [c])
  }

  function Scanned(text: string): Scan {
    if text == "" then Scan([], [], 0, 0, "") else ScanChar(Scanned(text[..|text| - 1]), text[|text| - 1])
  }

  function Finished(s: Scan): Scan {
    if s.word != "" then s.(words := s.words + [s.word], word := "") else s
  }

  /** The words from word i on, with the gaps between them. */
  function Flat(words: seq<string>, gaps: seq<string>): string
    requires |words| == |gaps|
  {
    if words == [] then "" else
      var n := |words| - 1;
      Flat(words[..n], gaps[..n]) + gaps[n] + words[n]
  }

  predicate IsWord(w: string) {
    w != "" && forall i :: 0 <= i < |w| ==> !IsSpace(w[i])
  }

  predicate WordsOk(words: seq<string>, gaps: seq<string>) {
    && |words| == |gaps|
    && (forall i :: 0 <= i < |words| ==> IsWord(words[i]))
    && (words != [] ==> gaps[0] == "")
    && (forall i :: 0 < i < |gaps| ==> gaps[i] != "" && gaps[i] == Spaces(|gaps[i]|))
  }

  lemma FlatSnoc(words: seq<string>, gaps: seq<string>, g: string, w: string)
    requires |words| == |gaps|
    ensures Flat(words + [w], gaps + [g]) == Flat(words, gaps) + g + w
  {
    assert (words + [w])[..|words|] == words && (gaps + [g])[..|gaps|] == gaps;
  }

  ghost predicate ScanOk(s: Scan, text: string) {
    && |s.gaps| == |s.words| + (if s.word == "" then 0 else 1)
    && (s.word != "" ==> IsWord(s.word) && s.gap == 0)
    && (s.word == "" && s.words != [] ==> s.gap > 0)
    && (s.gaps == [] ==> s.lead == 0)
    && (s.gaps != [] ==> s.gaps[0] == "")
    && WordsOk(Finished(s).words, s.gaps)
    && Blanked(text) == Spaces(s.lead) + Flat(Finished(s).words, s.gaps) + Spaces(s.gap)
  }

  lemma BlankedSnoc(text: string, c: char)
    ensures Blanked(text + [c]) == Blanked(text) + (if IsSpace(c) then " " else [c])
  {
  }

  lemma ScanSpace(s: Scan, text: string, c: char)
    requires ScanOk(s, text) && IsSpace(c)
    ensures ScanOk(ScanChar(s, c), text + [c])
  {
    BlankedSnoc(text, c);
    assert Spaces(s.gap) + " " == Spaces(s.gap + 1);
    assert Finished(ScanChar(s, c)).words == Finished(s).words;
  }

  lemma ScanLetter(s: Scan, text: string, c: char)
    requires ScanOk(s, text) && !IsSpace(c) && s.word != ""
    ensures ScanOk(ScanChar(s, c), text + [c])
  {
    var t, m := ScanChar(s, c), |s.words|;
    BlankedSnoc(text, c);
    assert s.gaps == s.gaps[..m] + [s.gaps[m]];
    FlatSnoc(s.words, s.gaps[..m], s.gaps[m], s.word);
    FlatSnoc(s.words, s.gaps[..m], s.gaps[m], t.word);
    var head := Spaces(s.lead) + Flat(s.words, s.gaps[..m]) + s.gaps[m];
    assert Spaces(0) == "" && head + t.word == head + s.word + [c];
    assert forall i :: 0 <= i < m ==> Finished(t).words[i] == Finished(s).words[i];
  }

  lemma ScanFirstLetter(s: Scan, text: string, c: char)
    requires ScanOk(s, text) && !IsSpace(c) && s.word == "" && s.words == []
    ensures ScanOk(ScanChar(s, c), text + [c])
  {
    var t := ScanChar(s, c);
    BlankedSnoc(text, c);
    hide Blanked, IsSpace;
    assert Flat([[c]], [""]) == [c] by { FlatSnoc([], [], "", [c]); }
    assert Finished(t).words == [[c]] && t.gaps == [""];
    assert Spaces(s.lead) + "" + Spaces(s.gap) == Spaces(t.lead);
    assert Spaces(t.gap) == "";
    hide Flat, Spaces;
    assert Spaces(t.lead) + [c] + "" == Spaces(t.lead) + [c];
  }

  lemma ScanNextLetter(s: Scan, text: string, c: char)
    requires ScanOk(s, text) && !IsSpace(c) && s.word == "" && s.words != []
    ensures ScanOk(ScanChar(s, c), text + [c])
  {
    var t, m := ScanChar(s, c), |s.words|;
    BlankedSnoc(text, c);
    hide Blanked, IsSpace;
    assert Spaces(0) == "";
    FlatSnoc(s.words, s.gaps, Spaces(s.gap), [c]);
    assert t.gaps[m] == Spaces(|t.gaps[m]|);
    assert forall i :: 0 <= i < m ==> t.gaps[i] == s.gaps[i] && Finished(t).words[i] == s.words[i];
  }

  /** Words and gaps are the text: nothing but the whitespace before the first word and after
      the last is left out, and a gap is as wide as the whitespace it stands for. */
  lemma {:induction false} ScannedIsText(text: string)
    ensures ScanOk(Scanned(text), text)
  {
    if text != "" {
      var init, c := text[..|text| - 1], text[|text| - 1];
      var s := Scanned(init);
      ScannedIsText(init);
      assert text == init + [c];
      if IsSpace(c) {
        ScanSpace(s, init, c);
      } else if s.word != "" {
        ScanLetter(s, init, c);
      } else if s.words == [] {
        ScanFirstLetter(s, init, c);
      } else {
        ScanNextLetter(s, init, c);
      }
    }
  }

  /** All of splitWords: words free of white space, and before each but the first a gap as wide as
      the white space there. */
  function WordsOf(text: string): (s: Scan)
    ensures WordsOk(s.words, s.gaps)
  {
    ScannedIsText(text);
    Finished(Scanned(text))
  }

  lemma ScannedStep(text: string, i: nat)
    requires i < |text|
    ensures Scanned(text[..i + 1]) == ScanChar(Scanned(text[..i]), text[i])
  {
    assert text[..i + 1][..i] == text[..i];
  }

  lemma SliceStep(text: string, a: nat, b: nat)
    requires a <= b < |text|
    ensures text[a..b + 1] == text[a..b] + [text[b]]
  {
  }

  method SplitWords(text: string) returns (words: seq<string>, gaps: seq<string>)
    ensures words == WordsOf(text).words && gaps == WordsOf(text).gaps
    ensures exists lead: nat, trail: nat :: Blanked(text) == Spaces(lead) + Flat(words, gaps) + Spaces(trail)
  {
    words, gaps := [], [];
    var gap, start := 0, -1;
    ghost var lead := 0;
    var i := 0;
    while i < |text|
      invariant 0 <= i <= |text| && -1 <= start < |text|
      invariant start >= 0 ==> start < i
      invariant Scanned(text[..i]) == Scan(words, gaps, lead, gap, if start < 0 then "" else text[start..i])
    {
      ScannedStep(text, i);
      hide Scanned, IsSpace, Spaces;
      if IsSpace(text[i]) {
        if start >= 0 {
          words := words + [text[start..i]];
          start := -1;
        }
        gap := gap + 1;
      } else {
        if start < 0 {
          start := i;
          if |words| == 0 {
            gaps := gaps + [""];
            lead := gap;
          } else {
            gaps := gaps + [Spaces(gap)];
          }
          gap := 0;
        }
        SliceStep(text, start, i);
      }
      i := i + 1;
    }
    assert text[..i] == text;
    ScannedIsText(text);
    hide IsSpace, Blanked, Flat, WordsOk;
    if start >= 0 {
      words := words + [text[start..]];
    }
  }

  // ------------------------------------------------------------- the layout

  datatype Cfg = Cfg(words: seq<string>, gaps: seq<string>, prefix: string, width: nat)

  /** One output line: what it starts with, then its text, which begins at offset off of the
      given word. dropped is the separator lost at the break before it. */
  datatype Line = Line(dropped: string, lead: string, body: string, word: nat, off: nat) {
    function Shown(): string { lead + body }
  }

  predicate CfgOk(g: Cfg) {
    WordsOk(g.words, g.gaps) && |g.prefix| < g.width
  }

  /** The wrap loop standing at offset off of word i, with the current line, whether it has
      content since its start, and the separator due before the next piece. */
  datatype At = At(i: nat, off: nat, line: Line, content: bool, sep: string)

  predicate AtOk(g: Cfg, p: At) {
    && p.i <= |g.words|
    && (if p.i == |g.words| then p.off == 0 else p.off < |g.words[p.i]|)
    && (p.off > 0 ==> p.sep == "" && !p.content && p.line.Shown() == "")
  }

  function Avail(g: Cfg, p: At): int {
    g.width - |p.line.Shown()| - |p.sep|
  }

  /** The separator due before word i: the gap in front of it. */
  function GapAt(g: Cfg, i: nat): string {
    if 0 < i < |g.gaps| then g.gaps[i] else ""
  }

  /** A new line that starts with the prefix; the separator is lost with the break. */
  function Broken(g: Cfg, p: At): At {
    At(p.i, p.off, Line(p.sep, g.prefix, "", p.i, p.off), false, "")
  }

  function Placed(g: Cfg, p: At): At
    requires AtOk(g, p) && p.i < |g.words|
  {
    At(p.i + 1, 0, p.line.(body := p.line.body + p.sep + g.words[p.i][p.off..]), true, GapAt(g, p.i + 1))
  }

  /** A hard break: as much of the word as fits, then a line without prefix. */
  function Filled(g: Cfg, p: At): Line
    requires AtOk(g, p) && p.i < |g.words| && 0 < Avail(g, p) < |g.words[p.i]| - p.off
  {
    p.line.(body := p.line.body + p.sep + g.words[p.i][p.off..p.off + Avail(g, p)])
  }

  function Continued(g: Cfg, p: At): At
    requires AtOk(g, p) && p.i < |g.words| && 0 < Avail(g, p) < |g.words[p.i]| - p.off
  {
    At(p.i, p.off + Avail(g, p), Line("", "", "", p.i, p.off + Avail(g, p)), false, "")
  }

  function Layout(g: Cfg, p: At): (lines: seq<Line>)
    requires CfgOk(g) && AtOk(g, p)
    ensures lines != []
    decreases |g.words| - p.i, if p.i < |g.words| then |g.words[p.i]| - p.off else 0,
              if p.content || Avail(g, p) <= 0 then 1 else 0
  {
    if p.i == |g.words| then [p.line]
    else if Avail(g, p) <= 0 then [p.line] + Layout(g, Broken(g, p))
    else if |g.words[p.i]| - p.off <= Avail(g, p) then Layout(g, Placed(g, p))
    else if !p.content then [Filled(g, p)] + Layout(g, Continued(g, p))
    else [p.line] + Layout(g, Broken(g, p))
  }

  function Texts(lines: seq<Line>): seq<string> {
    seq(|lines|, k requires 0 <= k < |lines| => lines[k].Shown())
  }

  /** The line under way is finished as the first one. */
  lemma {:induction false} FirstLine(g: Cfg, p: At)
    requires CfgOk(g) && AtOk(g, p)
    ensures var l := Layout(g, p)[0];
            l.dropped == p.line.dropped && l.lead == p.line.lead && l.word == p.line.word && l.off == p.line.off
            && p.line.body <= l.body
    decreases |g.words| - p.i, if p.i < |g.words| then |g.words[p.i]| - p.off else 0,
              if p.content || Avail(g, p) <= 0 then 1 else 0
  {
    if p.i < |g.words| && Avail(g, p) > 0 && |g.words[p.i]| - p.off <= Avail(g, p) {
      FirstLine(g, Placed(g, p));
    }
  }

  /** Every line fits, except that the caller's first line may itself be too wide, and then it
      is left exactly as it was. */
  lemma {:induction false} LinesFit(g: Cfg, p: At)
    requires CfgOk(g) && AtOk(g, p)
    ensures forall k :: 0 < k < |Layout(g, p)| ==> |Layout(g, p)[k].Shown()| <= g.width
    ensures |Layout(g, p)[0].Shown()| <= g.width || Layout(g, p)[0] == p.line
    decreases |g.words| - p.i, if p.i < |g.words| then |g.words[p.i]| - p.off else 0,
              if p.content || Avail(g, p) <= 0 then 1 else 0
  {
    if p.i == |g.words| {
    } else if Avail(g, p) <= 0 || (|g.words[p.i]| - p.off > Avail(g, p) && p.content) {
      LinesFit(g, Broken(g, p));
    } else if |g.words[p.i]| - p.off <= Avail(g, p) {
      LinesFit(g, Placed(g, p));
      FirstLine(g, Placed(g, p));
    } else {
      LinesFit(g, Continued(g, p));
    }
  }

  /** The text still to be laid out, after the separator due. */
  function Rest(g: Cfg, i: nat, off: nat): string
    requires |g.words| == |g.gaps| && i <= |g.words| && (i < |g.words| ==> off <= |g.words[i]|)
    decreases |g.words| - i
  {
    if i == |g.words| then "" else g.words[i][off..] + GapAt(g, i + 1) + Rest(g, i + 1, 0)
  }

  /** The lines put end to end, with each break's separator back in its place. */
  function Rejoined(lines: seq<Line>): string {
    if lines == [] then "" else lines[0].dropped + lines[0].body + Rejoined(lines[1..])
  }

  /** What Rejoined should come to from p on. */
  function Pending(g: Cfg, p: At): string
    requires CfgOk(g) && AtOk(g, p)
  {
    p.line.dropped + p.line.body + (if p.i == |g.words| then "" else p.sep + Rest(g, p.i, p.off))
  }

  lemma BrokenPending(g: Cfg, p: At)
    requires CfgOk(g) && AtOk(g, p) && p.i < |g.words| && (Avail(g, p) <= 0 || p.content)
    ensures p.line.dropped + p.line.body + Pending(g, Broken(g, p)) == Pending(g, p)
  {
    var rest := Rest(g, p.i, p.off);
    assert p.sep + "" + ("" + rest) == p.sep + rest;
  }

  lemma Regroup(a: string, b: string, s: string, w: string, rest: string)
    ensures a + (b + s + w) + rest == a + b + (s + (w + rest))
  {
  }

  lemma RestAt(g: Cfg, i: nat, off: nat)
    requires |g.words| == |g.gaps| && i < |g.words| && off <= |g.words[i]|
    ensures Rest(g, i, off) == g.words[i][off..] + (GapAt(g, i + 1) + Rest(g, i + 1, 0))
    ensures i + 1 == |g.words| ==> GapAt(g, i + 1) + Rest(g, i + 1, 0) == ""
  {
  }

  lemma PlacedPending(g: Cfg, p: At)
    requires CfgOk(g) && AtOk(g, p) && p.i < |g.words|
    ensures Pending(g, Placed(g, p)) == Pending(g, p)
  {
    RestAt(g, p.i, p.off);
    hide Rest, GapAt;
    Regroup(p.line.dropped, p.line.body, p.sep, g.words[p.i][p.off..], GapAt(g, p.i + 1) + Rest(g, p.i + 1, 0));
  }

  lemma FilledPending(g: Cfg, p: At)
    requires CfgOk(g) && AtOk(g, p) && p.i < |g.words| && 0 < Avail(g, p) < |g.words[p.i]| - p.off
    ensures Filled(g, p).dropped + Filled(g, p).body + Pending(g, Continued(g, p)) == Pending(g, p)
  {
    hide Rest, GapAt, Continued, Pending;
    var w, cut := g.words[p.i], p.off + Avail(g, p);
    PendingAt(g, p);
    PendingContinued(g, p);
    RestAt(g, p.i, p.off);
    RestAt(g, p.i, cut);
    var tail := GapAt(g, p.i + 1) + Rest(g, p.i + 1, 0);
    CutInTwo(w, p.off, cut, tail);
    Regroup(p.line.dropped, p.line.body, p.sep, w[p.off..cut], w[cut..] + tail);
  }

  lemma PendingAt(g: Cfg, p: At)
    requires CfgOk(g) && AtOk(g, p) && p.i < |g.words|
    ensures Pending(g, p) == p.line.dropped + p.line.body + (p.sep + Rest(g, p.i, p.off))
  {
  }

  lemma PendingContinued(g: Cfg, p: At)
    requires CfgOk(g) && AtOk(g, p) && p.i < |g.words| && 0 < Avail(g, p) < |g.words[p.i]| - p.off
    ensures Pending(g, Continued(g, p)) == Rest(g, p.i, p.off + Avail(g, p))
  {
  }

  lemma CutInTwo(w: string, a: nat, b: nat, tail: string)
    requires a <= b <= |w|
    ensures w[a..b] + (w[b..] + tail) == w[a..] + tail
  {
  }

  /** Stripping the leads and restoring the separators gives back the text: all words, in
      order, with their exact gaps. */
  lemma {:induction false} LayoutKeepsText(g: Cfg, p: At)
    requires CfgOk(g) && AtOk(g, p)
    ensures Rejoined(Layout(g, p)) == Pending(g, p)
    decreases |g.words| - p.i, if p.i < |g.words| then |g.words[p.i]| - p.off else 0,
              if p.content || Avail(g, p) <= 0 then 1 else 0
  {
    hide Pending, Rest;
    var all := Layout(g, p);
    if p.i == |g.words| {
      LastPending(g, p);
    } else if Avail(g, p) <= 0 || (|g.words[p.i]| - p.off > Avail(g, p) && p.content) {
      LayoutKeepsText(g, Broken(g, p));
      assert all[1..] == Layout(g, Broken(g, p));
      BrokenPending(g, p);
    } else if |g.words[p.i]| - p.off <= Avail(g, p) {
      LayoutKeepsText(g, Placed(g, p));
      PlacedPending(g, p);
    } else {
      LayoutKeepsText(g, Continued(g, p));
      assert all[1..] == Layout(g, Continued(g, p));
      FilledPending(g, p);
    }
  }

  lemma LastPending(g: Cfg, p: At)
    requires CfgOk(g) && AtOk(g, p) && p.i == |g.words|
    ensures Rejoined([p.line]) == Pending(g, p)
  {
  }

  /** Breaks fall where the rules allow them and only when they must. At a word boundary the
      line starts with the prefix and exactly the separator due is lost; the line before had no
      room for the word. Inside a word nothing is lost, the line starts bare, and the line
      before is full and began with that word too: a word is cut only where it began a line. */
  ghost predicate BreakOk(g: Cfg, before: Line, l: Line, sep: string)
    requires |g.words| == |g.gaps|
  {
    && l.word < |g.words| && l.off < |g.words[l.word]|
    && (l.off == 0 ==> l.lead == g.prefix && l.dropped == sep
                       && |before.Shown()| + |sep| + |g.words[l.word]| > g.width)
    && (l.off > 0 ==> l.lead == "" && l.dropped == "" && |before.Shown()| == g.width && before.word == l.word)
  }

  /** The separator due before a word: the caller's before the first, its gap before another. */
  function Due(g: Cfg, word: nat, initialSep: string): string {
    if word == 0 then initialSep else GapAt(g, word)
  }

  /** p's separator is the one due, unless a break has just used it up. */
  predicate SepOk(g: Cfg, p: At, initialSep: string) {
    p.i < |g.words| && p.off == 0 ==>
      p.sep == Due(g, p.i, initialSep) || (p.sep == "" && !p.content && p.line.Shown() == g.prefix)
  }

  ghost predicate Forced(g: Cfg, ls: seq<Line>, initialSep: string)
    requires |g.words| == |g.gaps|
  {
    forall k :: 0 < k < |ls| ==> BreakOk(g, ls[k - 1], ls[k], Due(g, ls[k].word, initialSep))
  }

  lemma {:induction false} BreaksAreForced(g: Cfg, p: At, initialSep: string)
    requires CfgOk(g) && AtOk(g, p) && SepOk(g, p, initialSep) && (!p.content ==> p.line.word == p.i)
    ensures Forced(g, Layout(g, p), initialSep)
    decreases |g.words| - p.i, if p.i < |g.words| then |g.words[p.i]| - p.off else 0,
              if p.content || Avail(g, p) <= 0 then 1 else 0
  {
    if p.i == |g.words| {
    } else if Avail(g, p) <= 0 || (|g.words[p.i]| - p.off > Avail(g, p) && p.content) {
      BreaksAreForced(g, Broken(g, p), initialSep);
      FirstLine(g, Broken(g, p));
    } else if |g.words[p.i]| - p.off <= Avail(g, p) {
      BreaksAreForced(g, Placed(g, p), initialSep);
    } else {
      BreaksAreForced(g, Continued(g, p), initialSep);
      FirstLine(g, Continued(g, p));
    }
  }

  // ------------------------------------------------------------- the code

  /** Where a word's URL is, if it has one; start is negative when it has none. */
  datatype UrlSpan = UrlSpan(start: int, end: int, target: string)

  predicate SpanOk(u: UrlSpan, word: string) {
    u.start < 0 || u.start <= u.end <= |word|
  }

  /** The linked characters of word[a..b]: those inside the URL span. */
  function UrlPart(word: string, u: UrlSpan, id: nat, a: nat, b: nat): seq<Hot>
    requires a <= b <= |word| && SpanOk(u, word)
  {
    var lo, hi := if a < u.start then u.start else a, if u.end < b then u.end else b;
    if u.start >= 0 && lo < hi then HotText(word[lo..hi], u.target, id) else []
  }

  lemma UrlParts(word: string, u: UrlSpan, id: nat, a: nat, b: nat, c: nat)
    requires a <= b <= c <= |word| && SpanOk(u, word)
    ensures UrlPart(word, u, id, a, b) + UrlPart(word, u, id, b, c) == UrlPart(word, u, id, a, c)
    ensures UrlPart(word, u, id, a, a) == []
  {
    var lo, hi := if a < u.start then u.start else a, if u.end < c then u.end else c;
    if u.start >= 0 && lo < b < hi {
      assert word[lo..b] + word[b..hi] == word[lo..hi];
      assert HotText(word[lo..b], u.target, id) + HotText(word[b..hi], u.target, id)
          == HotText(word[lo..hi], u.target, id);
    }
  }

  /** word[a..b], with the part inside the URL span as a link. */
  function Render(word: string, u: UrlSpan, id: nat, a: nat, b: nat): (ps: seq<Piece>)
    requires a <= b <= |word| && SpanOk(u, word)
    ensures Erase(ps) == word[a..b] && Hots(ps) == UrlPart(word, u, id, a, b)
  {
    if u.start < 0 || b <= u.start || a >= u.end then
      HotsSnoc([], Plain(word[a..b]));
      [Plain(word[a..b])]
    else
      var lo, hi := if a > u.start then a else u.start, if b < u.end then b else u.end;
      EraseThree(word[a..lo], u.target, id, word[lo..hi], word[hi..b]);
      ThreeParts(word, a, lo, hi, b);
      [Plain(word[a..lo]), Link(u.target, id, word[lo..hi]), Plain(word[hi..b])]
  }

  lemma EraseThree(x: string, target: string, id: nat, y: string, z: string)
    ensures var ps := [Plain(x), Link(target, id, y), Plain(z)];
            Erase(ps) == x + y + z && Hots(ps) == HotText(y, target, id)
  {
    hide HotText;
    HotsSnoc([], Plain(x));
    HotsSnoc([Plain(x)], Link(target, id, y));
    HotsSnoc([Plain(x), Link(target, id, y)], Plain(z));
    assert [Plain(x), Link(target, id, y)] + [Plain(z)] == [Plain(x), Link(target, id, y), Plain(z)];
  }

  lemma ThreeParts(s: string, a: nat, i: nat, j: nat, b: nat)
    requires a <= i <= j <= b <= |s|
    ensures s[a..i] + s[i..j] + s[j..b] == s[a..b]
  {
  }

  function Erased(lines: seq<seq<Piece>>): seq<string> {
    seq(|lines|, k requires 0 <= k < |lines| => Erase(lines[k]))
  }

  lemma TextsCons(l: Line, ls: seq<Line>, done: seq<seq<Piece>>, shown: seq<Piece>)
    requires Erase(shown) == l.Shown()
    ensures Erased(done) + Texts([l] + ls) == Erased(done + [shown]) + Texts(ls)
  {
  }

  /** The layout the caller asked for, in plain text. */
  function Wrapped(curLine: string, wordPrefix: string, words: seq<string>, gaps: seq<string>,
                   width: nat, initialSep: string): seq<Line>
    requires WordsOk(words, gaps) && |wordPrefix| < width
  {
    Layout(Cfg(words, gaps, wordPrefix, width), Start(curLine, initialSep))
  }

  function Start(curLine: string, initialSep: string): At {
    At(0, 0, Line("", curLine, "", 0, 0), false, initialSep)
  }

  function Width(maxWidth: int): (r: nat)
    ensures maxWidth >= 1 ==> r == maxWidth
    ensures maxWidth < 1 ==> r == 1
  {
    if maxWidth < 1 then 1 else maxWidth
  }

  /** The text from word i on, with the gap in front of it. */
  function Onwards(g: Cfg, i: nat): string
    requires |g.words| == |g.gaps| && i <= |g.words|
  {
    if i < |g.words| then g.gaps[i] + Rest(g, i, 0) else ""
  }

  lemma OnwardsStep(g: Cfg, i: nat, head: string)
    requires |g.words| == |g.gaps| && i < |g.words|
    ensures head + Onwards(g, i) == head + g.gaps[i] + g.words[i] + Onwards(g, i + 1)
  {
    assert g.words[i][0..] == g.words[i];
    assert Onwards(g, i + 1) == GapAt(g, i + 1) + Rest(g, i + 1, 0);
    assert Rest(g, i, 0) == g.words[i] + Onwards(g, i + 1);
  }

  lemma {:induction false} RestIsFlat(g: Cfg, i: nat)
    requires |g.words| == |g.gaps| && i <= |g.words|
    ensures Flat(g.words[..i], g.gaps[..i]) + Onwards(g, i) == Flat(g.words, g.gaps)
    decreases |g.words| - i
  {
    if i == |g.words| {
      assert g.words[..i] == g.words && g.gaps[..i] == g.gaps;
    } else {
      hide Flat, Onwards;
      RestIsFlat(g, i + 1);
      FlatSnoc(g.words[..i], g.gaps[..i], g.gaps[i], g.words[i]);
      assert g.words[..i + 1] == g.words[..i] + [g.words[i]];
      assert g.gaps[..i + 1] == g.gaps[..i] + [g.gaps[i]];
      OnwardsStep(g, i, Flat(g.words[..i], g.gaps[..i]));
    }
  }

  /** What wrapping promises, for any text: the lines put back together are the caller's
      separator and the text, whitespace shown as spaces and nothing dropped but the
      whitespace at its two ends; every line fits; and every break is forced. */
  lemma WrapIsFaithful(curLine: string, wordPrefix: string, text: string, maxWidth: int, initialSep: string)
    requires |wordPrefix| < Width(maxWidth)
    requires WordsOf(text).words != []
    ensures var s := WordsOf(text);
            var ls := Wrapped(curLine, wordPrefix, s.words, s.gaps, Width(maxWidth), initialSep);
            && ls[0].lead == curLine
            && (|ls[0].Shown()| <= Width(maxWidth) || ls[0].Shown() == curLine)
            && (forall k :: 0 < k < |ls| ==> |ls[k].Shown()| <= Width(maxWidth))
            && Forced(Cfg(s.words, s.gaps, wordPrefix, Width(maxWidth)), ls, initialSep)
            && exists body: string, trail: nat :: Rejoined(ls) == initialSep + body
                 && Blanked(text) == Spaces(s.lead) + body + Spaces(trail)
  {
    var s := WordsOf(text);
    var g, p := Cfg(s.words, s.gaps, wordPrefix, Width(maxWidth)), Start(curLine, initialSep);
    FirstLine(g, p);
    LinesFit(g, p);
    BreaksAreForced(g, p, initialSep);
    LayoutKeepsText(g, p);
    ScannedIsText(text);
    RestIsFlat(g, 0);
    var body := Rest(g, 0, 0);
    assert body == Flat(s.words, s.gaps);
    assert Blanked(text) == Spaces(s.lead) + body + Spaces(s.gap);
  }

  lemma LayoutStep(g: Cfg, p: At)
    requires CfgOk(g) && AtOk(g, p)
    ensures p.i == |g.words| ==> Layout(g, p) == [p.line]
    ensures p.i < |g.words| && (Avail(g, p) <= 0 || (|g.words[p.i]| - p.off > Avail(g, p) && p.content)) ==>
              Layout(g, p) == [p.line] + Layout(g, Broken(g, p))
    ensures p.i < |g.words| && 0 < Avail(g, p) && |g.words[p.i]| - p.off <= Avail(g, p) ==>
              Layout(g, p) == Layout(g, Placed(g, p))
    ensures p.i < |g.words| && 0 < Avail(g, p) < |g.words[p.i]| - p.off && !p.content ==>
              Layout(g, p) == [Filled(g, p)] + Layout(g, Continued(g, p))
  {
  }

  lemma TurnLine(g: Cfg, p: At, done: seq<seq<Piece>>, cur: seq<Piece>)
    requires CfgOk(g) && AtOk(g, p) && p.i < |g.words| && Erase(cur) == p.line.Shown()
    requires Avail(g, p) <= 0 || (|g.words[p.i]| - p.off > Avail(g, p) && p.content)
    ensures p.off == 0 && AtOk(g, Broken(g, p)) && Broken(g, p).line.Shown() == g.prefix
    ensures Erased(done) + Texts(Layout(g, p)) == Erased(done + [cur]) + Texts(Layout(g, Broken(g, p)))
  {
    TextsCons(p.line, Layout(g, Broken(g, p)), done, cur);
  }

  lemma FillLine(g: Cfg, p: At, done: seq<seq<Piece>>, cur: seq<Piece>)
    requires CfgOk(g) && AtOk(g, p) && p.i < |g.words|
    requires 0 < Avail(g, p) < |g.words[p.i]| - p.off && !p.content
    requires Erase(cur) == p.line.Shown() + p.sep + g.words[p.i][p.off..p.off + Avail(g, p)]
    ensures AtOk(g, Continued(g, p)) && Continued(g, p).line.Shown() == ""
    ensures Erased(done) + Texts(Layout(g, p)) == Erased(done + [cur]) + Texts(Layout(g, Continued(g, p)))
  {
    var w := g.words[p.i][p.off..p.off + Avail(g, p)];
    assert p.line.lead + (p.line.body + p.sep + w) == p.line.Shown() + p.sep + w;
    TextsCons(Filled(g, p), Layout(g, Continued(g, p)), done, cur);
  }

  lemma PlaceWord(g: Cfg, p: At)
    requires CfgOk(g) && AtOk(g, p) && p.i < |g.words| && 0 < Avail(g, p) && |g.words[p.i]| - p.off <= Avail(g, p)
    ensures Layout(g, p) == Layout(g, Placed(g, p))
    ensures Placed(g, p).line.Shown() == p.line.Shown() + p.sep + g.words[p.i][p.off..]
    ensures Placed(g, p) == At(p.i + 1, 0, Placed(g, p).line, true, GapAt(g, p.i + 1))
  {
    var w := g.words[p.i][p.off..];
    assert p.line.lead + (p.line.body + p.sep + w) == p.line.Shown() + p.sep + w;
  }

  /** The pieces of one more stretch of a word, after its separator. */
  function Extended(cur: seq<Piece>, sep: string, ps: seq<Piece>): (r: seq<Piece>)
    ensures Erase(r) == Erase(cur) + sep + Erase(ps) && Hots(r) == Hots(cur) + Hots(ps)
  {
    EraseConcat(cur + [Plain(sep)], ps);
    HotsConcat(cur + [Plain(sep)], ps);
    HotsSnoc(cur, Plain(sep));
    cur + [Plain(sep)] + ps
  }

  function Bare(s: string): (ps: seq<Piece>)
    ensures Erase(ps) == s && Hots(ps) == []
  {
    HotsSnoc([], Plain(s));
    [Plain(s)]
  }

  /** The linked characters out so far and those still to come of the word under way. */
  ghost predicate HotSoFar(lines: seq<seq<Piece>>, cur: seq<Piece>, rest: seq<Hot>, all: seq<Hot>) {
    LineHots(lines) + Hots(cur) + rest == all
  }

  lemma HotStart(lines: seq<seq<Piece>>, cur: seq<Piece>, rest: seq<Hot>)
    ensures HotSoFar(lines, cur, rest, LineHots(lines) + Hots(cur) + rest)
  {
  }

  lemma HotEnd(word: string, u: UrlSpan, id: nat, lines: seq<seq<Piece>>, cur: seq<Piece>, all: seq<Hot>)
    requires SpanOk(u, word) && HotSoFar(lines, cur, UrlPart(word, u, id, |word|, |word|), all)
    ensures LineHots(lines) + Hots(cur) == all
  {
    hide Hots, LineHots, UrlPart;
    UrlParts(word, u, id, |word|, |word|, |word|);
  }

  lemma HotTurn(lines: seq<seq<Piece>>, cur: seq<Piece>, next: seq<Piece>, rest: seq<Hot>, all: seq<Hot>)
    requires HotSoFar(lines, cur, rest, all) && Hots(next) == []
    ensures HotSoFar(lines + [cur], next, rest, all)
  {
    assert (lines + [cur])[..|lines|] == lines;
    hide Hots;
    assert LineHots(lines + [cur]) + [] == LineHots(lines) + Hots(cur);
  }

  lemma HotExtend(lines: seq<seq<Piece>>, cur: seq<Piece>, part: seq<Hot>, rest: seq<Hot>, next: seq<Piece>,
                  all: seq<Hot>)
    requires HotSoFar(lines, cur, part + rest, all) && Hots(next) == Hots(cur) + part
    ensures HotSoFar(lines, next, rest, all)
  {
    hide Hots, LineHots;
    assert LineHots(lines) + (Hots(cur) + part) + rest == LineHots(lines) + Hots(cur) + (part + rest);
  }

  lemma HotPart(word: string, u: UrlSpan, id: nat, a: nat, b: nat, lines: seq<seq<Piece>>, cur: seq<Piece>,
                sep: string, all: seq<Hot>)
    requires a <= b <= |word| && SpanOk(u, word)
    requires HotSoFar(lines, cur, UrlPart(word, u, id, a, |word|), all)
    ensures HotSoFar(lines, Extended(cur, sep, Render(word, u, id, a, b)), UrlPart(word, u, id, b, |word|), all)
  {
    hide Hots, LineHots, HotSoFar, UrlPart, Extended, Render;
    UrlParts(word, u, id, a, b, |word|);
    HotExtend(lines, cur, UrlPart(word, u, id, a, b), UrlPart(word, u, id, b, |word|),
              Extended(cur, sep, Render(word, u, id, a, b)), all);
  }

  /** The inner loop: lay out one word, on the current line and on as many more as it takes.
      line is the current line as the layout sees it. */
  method WrapWord(ghost g: Cfg, i: nat, word: string, wordPrefix: string, width: nat, u: UrlSpan, id: nat,
                  lines0: seq<seq<Piece>>, cur0: seq<Piece>, curVis0: nat, sep0: string, content0: bool,
                  ghost line0: Line)
    returns (lines: seq<seq<Piece>>, cur: seq<Piece>, curVis: nat, ghost line: Line)
    requires CfgOk(g) && i < |g.words| && word == g.words[i] && wordPrefix == g.prefix && width == g.width
    requires SpanOk(u, word) && Erase(cur0) == line0.Shown() && curVis0 == |line0.Shown()|
    ensures Erase(cur) == line.Shown() && curVis == |line.Shown()|
    ensures Erased(lines0) + Texts(Layout(g, At(i, 0, line0, content0, sep0)))
              == Erased(lines) + Texts(Layout(g, At(i + 1, 0, line, true, GapAt(g, i + 1))))
    ensures LineHots(lines) + Hots(cur) == LineHots(lines0) + Hots(cur0) + UrlPart(word, u, id, 0, |word|)
  {
    hide Layout, Erase, Render, Extended, Bare, Texts, Erased, Placed, Line.Shown, Hots, LineHots, HotSoFar, UrlPart;
    ghost var hots := LineHots(lines0) + Hots(cur0) + UrlPart(word, u, id, 0, |word|);
    HotStart(lines0, cur0, UrlPart(word, u, id, 0, |word|));
    lines, cur, curVis, line := lines0, cur0, curVis0, line0;
    var sep, lineHasContent, continuingWord := sep0, content0, false;
    ghost var whole := Erased(lines) + Texts(Layout(g, At(i, 0, line, content0, sep)));
    var consumed := 0;
    while consumed < |word|
      invariant consumed <= |word|
      invariant Erase(cur) == line.Shown() && curVis == |line.Shown()|
      invariant continuingWord <==> 0 < consumed < |word|
      invariant consumed < |word| ==> AtOk(g, At(i, consumed, line, lineHasContent, sep))
      invariant consumed < |word| ==>
        Erased(lines) + Texts(Layout(g, At(i, consumed, line, lineHasContent, sep))) == whole
      invariant consumed == |word| ==>
        Erased(lines) + Texts(Layout(g, At(i + 1, 0, line, true, GapAt(g, i + 1)))) == whole
      invariant HotSoFar(lines, cur, UrlPart(word, u, id, consumed, |word|), hots)
      decreases |word| - consumed, if lineHasContent || width <= curVis + |sep| then 1 else 0
    {
      ghost var p := At(i, consumed, line, lineHasContent, sep);
      var remaining := |word| - consumed;
      var avail := width - curVis - |sep|;
      if avail <= 0 {
        // A hard break leaves a whole line free, so this is never in the middle of a word.
        TurnLine(g, p, lines, cur);
        assert !continuingWord;
        HotTurn(lines, cur, Bare(wordPrefix), UrlPart(word, u, id, consumed, |word|), hots);
        lines := lines + [cur];
        cur := Bare(wordPrefix);
        line := Broken(g, p).line;
        curVis, lineHasContent, sep := |wordPrefix|, false, "";
        continue;
      }
      if remaining <= avail {
        PlaceWord(g, p);
        HotPart(word, u, id, consumed, |word|, lines, cur, sep, hots);
        cur := Extended(cur, sep, Render(word, u, id, consumed, |word|));
        line := Placed(g, p).line;
        curVis := curVis + |sep| + remaining;
        consumed, sep, lineHasContent, continuingWord := |word|, " ", true, false;
      } else if !lineHasContent {
        HotPart(word, u, id, consumed, consumed + avail, lines, cur, sep, hots);
        cur := Extended(cur, sep, Render(word, u, id, consumed, consumed + avail));
        FillLine(g, p, lines, cur);
        HotTurn(lines, cur, Bare(""), UrlPart(word, u, id, consumed + avail, |word|), hots);
        consumed := consumed + avail;
        lines := lines + [cur];
        cur := Bare("");
        line := Continued(g, p).line;
        curVis, lineHasContent, sep, continuingWord := 0, false, "", true;
      } else {
        TurnLine(g, p, lines, cur);
        HotTurn(lines, cur, Bare(wordPrefix), UrlPart(word, u, id, consumed, |word|), hots);
        lines := lines + [cur];
        cur := Bare(wordPrefix);
        line := Broken(g, p).line;
        curVis, lineHasContent, sep, continuingWord := |wordPrefix|, false, "", false;
      }
    }
    HotEnd(word, u, id, lines, cur, hots);
  }

  /** The linked characters of some words: those of each word's URL, with its target and, one for each word
      that has a URL, the next id. */
  function UrlsOf(words: seq<string>, spanOf: string -> UrlSpan, id: nat): seq<Hot>
    requires forall w :: SpanOk(spanOf(w), w)
  {
    if words == [] then [] else
      var u := spanOf(words[0]);
      UrlPart(words[0], u, id, 0, |words[0]|) + UrlsOf(words[1..], spanOf, if u.start >= 0 then id + 1 else id)
  }

  /** How many characters the words' URLs have, and how many words have one. */
  function UrlChars(words: seq<string>, spanOf: string -> UrlSpan): nat
    requires forall w :: SpanOk(spanOf(w), w)
  {
    if words == [] then 0 else
      var u := spanOf(words[0]);
      (if u.start >= 0 then u.end - u.start else 0) + UrlChars(words[1..], spanOf)
  }

  function UrlCount(words: seq<string>, spanOf: string -> UrlSpan): nat {
    if words == [] then 0 else (if spanOf(words[0]).start >= 0 then 1 else 0) + UrlCount(words[1..], spanOf)
  }

  /** Each character of a word's URL has its own place there, under the target of the URL and an id that
      no other word has; there is nothing else. */
  lemma {:induction false} UrlsAt(words: seq<string>, spanOf: string -> UrlSpan, id: nat, k: nat, p: nat)
    requires (forall w :: SpanOk(spanOf(w), w)) && k < |words|
    requires var u := spanOf(words[k]); 0 <= u.start <= p < u.end
    ensures var n := UrlChars(words[..k], spanOf) + p - spanOf(words[k]).start;
            n < |UrlsOf(words, spanOf, id)|
            && UrlsOf(words, spanOf, id)[n]
                 == Hot(words[k][p], spanOf(words[k]).target, id + UrlCount(words[..k], spanOf))
    decreases k
  {
    if k > 0 {
      var u := spanOf(words[0]);
      assert words[..k][1..] == words[1..][..k - 1] && words[..k][0] == words[0];
      UrlsAt(words[1..], spanOf, if u.start >= 0 then id + 1 else id, k - 1, p);
    } else {
      assert words[..k] == [];
    }
  }

  lemma {:induction false} UrlsLength(words: seq<string>, spanOf: string -> UrlSpan, id: nat)
    requires forall w :: SpanOk(spanOf(w), w)
    ensures |UrlsOf(words, spanOf, id)| == UrlChars(words, spanOf)
  {
    if words != [] {
      UrlsLength(words[1..], spanOf, if spanOf(words[0]).start >= 0 then id + 1 else id);
    }
  }

  /** With the words from word i on still to come, these links are out. */
  ghost predicate LinksOut(lines: seq<seq<Piece>>, cur: seq<Piece>, linkify: bool, words: seq<string>, i: nat,
                           spanOf: string -> UrlSpan, id: nat, all: seq<Hot>)
    requires (forall w :: SpanOk(spanOf(w), w)) && i <= |words|
  {
    LineHots(lines) + Hots(cur) + (if linkify then UrlsOf(words[i..], spanOf, id) else []) == all
  }

  lemma LinkStep(was: seq<seq<Piece>>, cur: seq<Piece>, linkify: bool, words: seq<string>, i: nat,
                 spanOf: string -> UrlSpan, id: nat, all: seq<Hot>, lines: seq<seq<Piece>>, next: seq<Piece>,
                 u: UrlSpan, given: nat)
    requires (forall w :: SpanOk(spanOf(w), w)) && i < |words| && LinksOut(was, cur, linkify, words, i, spanOf, id, all)
    requires u == if linkify then spanOf(words[i]) else UrlSpan(-1, -1, "")
    requires u.start >= 0 ==> given == id
    requires LineHots(lines) + Hots(next)
          == LineHots(was) + Hots(cur) + UrlPart(words[i], u, given, 0, |words[i]|)
    ensures LinksOut(lines, next, linkify, words, i + 1, spanOf, if u.start >= 0 then id + 1 else id, all)
  {
    hide Hots, LineHots, UrlsOf, UrlPart;
    if linkify {
      UrlsStep(words, i, spanOf, id);
    }
    if u.start < 0 { NoUrl(words[i], u, given); }
  }

  lemma UrlsStep(words: seq<string>, i: nat, spanOf: string -> UrlSpan, id: nat)
    requires (forall w :: SpanOk(spanOf(w), w)) && i < |words|
    ensures var u := spanOf(words[i]);
            UrlsOf(words[i..], spanOf, id)
              == UrlPart(words[i], u, id, 0, |words[i]|)
                   + UrlsOf(words[i + 1..], spanOf, if u.start >= 0 then id + 1 else id)
    ensures spanOf(words[i]).start < 0 ==>
      UrlsOf(words[i..], spanOf, id) == UrlsOf(words[i + 1..], spanOf, id)
  {
    var u := spanOf(words[i]);
    assert words[i..][1..] == words[i + 1..] && words[i..][0] == words[i];
    if u.start < 0 { NoUrl(words[i], u, id); }
    hide UrlPart;
  }

  lemma NoUrl(word: string, u: UrlSpan, id: nat)
    requires SpanOk(u, word) && u.start < 0
    ensures UrlPart(word, u, id, 0, |word|) == []
  {
  }

  lemma LinkStart(cur: seq<Piece>, linkify: bool, words: seq<string>, spanOf: string -> UrlSpan, id: nat)
    requires (forall w :: SpanOk(spanOf(w), w)) && Hots(cur) == []
    ensures LinksOut([], cur, linkify, words, 0, spanOf, id, if linkify then UrlsOf(words, spanOf, id) else [])
    ensures UrlsOf([], spanOf, id) == [] && LineHots([cur]) == []
  {
    hide Hots;
    assert words[0..] == words && [cur][..0] == [];
  }

  lemma LinkEnd(lines: seq<seq<Piece>>, cur: seq<Piece>, linkify: bool, words: seq<string>,
                spanOf: string -> UrlSpan, id: nat, all: seq<Hot>)
    requires (forall w :: SpanOk(spanOf(w), w)) && LinksOut(lines, cur, linkify, words, |words|, spanOf, id, all)
    ensures LineHots(lines + [cur]) == all
  {
    hide Hots;
    assert (lines + [cur])[..|lines|] == lines && words[|words|..] == [];
  }

  lemma Starting(curLine: string, initialSep: string)
    ensures Start(curLine, initialSep).line.Shown() == curLine
    ensures Start(curLine, initialSep) == At(0, 0, Start(curLine, initialSep).line, false, initialSep)
    ensures forall cur :: Erase(cur) == curLine ==> Erased([cur]) == [curLine]
    ensures Erased([]) == []
  {
    hide Erase;
  }

  lemma Asked(curLine: string, wordPrefix: string, words: seq<string>, gaps: seq<string>, width: nat,
              initialSep: string)
    requires WordsOk(words, gaps) && |wordPrefix| < width
    ensures Wrapped(curLine, wordPrefix, words, gaps, width, initialSep)
         == Layout(Cfg(words, gaps, wordPrefix, width), Start(curLine, initialSep))
    ensures var lines := Layout(Cfg(words, gaps, wordPrefix, width), Start(curLine, initialSep));
            [] + Texts(lines) == Texts(lines)
  {
    hide Layout;
  }

  lemma DueGap(g: Cfg, i: nat)
    requires |g.words| == |g.gaps| && i < |g.words|
    ensures i > 0 ==> GapAt(g, i) == g.gaps[i]
  {
  }

  lemma LastLine(g: Cfg, p: At, lines: seq<seq<Piece>>, cur: seq<Piece>)
    requires CfgOk(g) && AtOk(g, p) && p.i == |g.words| && Erase(cur) == p.line.Shown()
    ensures Erased(lines + [cur]) == Erased(lines) + Texts(Layout(g, p))
  {
    hide Erase, Line.Shown;
    LayoutStep(g, p);
  }

  /** wrapTextCore. spanOf stands for the URL pattern. With links erased the result does not
      depend on linkify or on the spans: it is always the plain layout of the words. What is linked,
      over all the lines, is each word's URL, every character of it once and under one id. */
  method WrapTextCore(curLine: string, wordPrefix: string, text: string, maxWidth: int,
                      initialSep: string, linkify: bool, spanOf: string -> UrlSpan, firstID: nat)
    returns (lines: seq<seq<Piece>>)
    requires |wordPrefix| < Width(maxWidth)
    requires forall w :: SpanOk(spanOf(w), w)
    ensures var s := WordsOf(text);
            Erased(lines) == if s.words == [] then [curLine]
                 else Texts(Wrapped(curLine, wordPrefix, s.words, s.gaps, Width(maxWidth), initialSep))
    ensures LineHots(lines) == if linkify then UrlsOf(WordsOf(text).words, spanOf, firstID) else []
  {
    hide Layout, Erase, Bare, Scanned, Finished, Hots, LineHots, UrlsOf, UrlPart, LinksOut, GapAt;
    hide Wrapped, Texts, Erased, Line.Shown, Flat, Blanked, Spaces, Start;
    Starting(curLine, initialSep);
    var width := if maxWidth < 1 then 1 else maxWidth;
    var words, gaps := SplitWords(text);
    LinkStart(Bare(curLine), linkify, words, spanOf, firstID);
    if |words| == 0 {
      return [Bare(curLine)];
    }
    ghost var g := Cfg(words, gaps, wordPrefix, width);
    Asked(curLine, wordPrefix, words, gaps, width, initialSep);
    ghost var all := if linkify then UrlsOf(words, spanOf, firstID) else [];
    lines := [];
    var cur := Bare(curLine);
    var sep := initialSep;
    var curVis: nat, nextID := |curLine|, firstID;
    ghost var line := Start(curLine, initialSep).line;
    var i := 0;
    while i < |words|
      invariant i <= |words|
      invariant Erase(cur) == line.Shown() && curVis == |line.Shown()|
      invariant sep == if i == 0 then initialSep else " "
      invariant Erased(lines) + Texts(Layout(g, At(i, 0, line, i > 0, if i == 0 then sep else GapAt(g, i))))
                  == Texts(Layout(g, Start(curLine, initialSep)))
      invariant LinksOut(lines, cur, linkify, words, i, spanOf, nextID, all)
    {
      ghost var was, before, from := lines, cur, nextID;
      DueGap(g, i);
      if i > 0 && sep != "" {
        sep := gaps[i];
      }
      var u, id := UrlSpan(-1, -1, ""), 0;
      if linkify {
        u := spanOf(words[i]);
        if u.start >= 0 {
          id := nextID;
          nextID := nextID + 1;
        }
      }
      lines, cur, curVis, line :=
        WrapWord(g, i, words[i], wordPrefix, width, u, id, lines, cur, curVis, sep, i > 0, line);
      LinkStep(was, before, linkify, words, i, spanOf, from, all, lines, cur, u, id);
      sep := " ";
      i := i + 1;
    }
    LastLine(g, At(i, 0, line, true, GapAt(g, i)), lines, cur);
    LinkEnd(lines, cur, linkify, words, spanOf, nextID, all);
    lines := lines + [cur];
  }
}
