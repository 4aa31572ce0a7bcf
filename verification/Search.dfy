/** Incremental history search (internal/tui/ui/input.go). Text is one char per byte with ASCII
    case folding. */
module Search {
  import opened Text

  /** An offset in one of the searched lines: the history, oldest first, then the saved line. */
  datatype Place = Place(line: nat, off: nat)

  predicate Less(p: Place, q: Place) {
    p.line < q.line || (p.line == q.line && p.off < q.off)
  }

  datatype Model = Model(
    history: seq<string>, searchMode: bool, searchBack: bool, searchBuf: string, searchSave: string,
    searchIdx: int, searchPos: nat, inputValue: string, inputCursor: nat)
  {
    predicate Ok() {
      && -1 <= searchIdx < |history|
      && searchPos <= |LineAt(Linear())|
    }

    /** searchLineAt. */
    function LineAt(line: nat): string {
      if line >= |history| then searchSave else history[line]
    }

    /** searchLinear. */
    function Linear(): nat {
      if searchIdx < 0 then |history| else searchIdx
    }

    function Here(): Place {
      Place(Linear(), searchPos)
    }

    /** withSearchResult: afterwards the search is at the given place and the input shows it. */
    function WithResult(p: Place): (m: Model)
      requires p.line <= |history|
      ensures m.Here() == p
      ensures m.inputValue == LineAt(p.line) && m.inputCursor == p.off
      ensures m == this.(searchIdx := m.searchIdx, searchPos := p.off, inputValue := m.inputValue, inputCursor := p.off)
    {
      this.(searchIdx := if p.line >= |history| then -1 else p.line, searchPos := p.off,
            inputValue := LineAt(p.line), inputCursor := p.off)
    }

    /** enterSearch. */
    function Enter(backward: bool): (m: Model)
      ensures m.Ok() && m.Here() == Place(|history|, if backward then |inputValue| else 0)
      ensures m.searchMode && m.searchBack == backward && m.searchBuf == "" && m.searchSave == inputValue
      ensures m.history == history && m.inputValue == inputValue && m.inputCursor == inputCursor
    {
      this.(searchMode := true, searchBack := backward, searchBuf := "", searchSave := inputValue,
            searchIdx := -1, searchPos := if backward then |inputValue| else 0)
    }

    /** The pattern occurs at p. */
    predicate Hit(p: Place) {
      && searchBuf != "" && p.line <= |history|
      && Occurs(Lower(LineAt(p.line)), Lower(searchBuf), p.off)
    }
  }

  /** A hit is a place where the line shows the pattern, bar case. */
  lemma HitIff(m: Model, p: Place)
    requires p.line <= |m.history|
    ensures var text := m.LineAt(p.line);
      m.Hit(p) <==> m.searchBuf != "" && p.off + |m.searchBuf| <= |text|
                      && SameBarCase(text[p.off..p.off + |m.searchBuf|], m.searchBuf)
  {
    var text, n := m.LineAt(p.line), |m.searchBuf|;
    if p.off + n <= |text| {
      assert Lower(text)[p.off..][..n] == Lower(text[p.off..p.off + n]);
      LowerIsFolding(text[p.off..p.off + n], m.searchBuf);
    }
  }

  predicate Occurs(text: string, pattern: string, i: nat) {
    i <= |text| && pattern <= text[i..]
  }

  lemma IndexAfter(text: string, pattern: string, start: nat)
    requires start <= |text|
    ensures match Index(text[start..], pattern)
      case None => forall i: nat :: start <= i ==> !Occurs(text, pattern, i)
      case Some(n) =>
        Occurs(text, pattern, start + n) && forall i: nat :: start <= i < start + n ==> !Occurs(text, pattern, i)
  {
    forall i | start <= i <= |text| ensures text[start..][i - start..] == text[i..] {
    }
  }

  /** firstMatchAtLeast. */
  function FirstMatchAtLeast(text: string, pattern: string, from: int): (r: int)
    ensures r >= 0 ==> r >= from && Occurs(Lower(text), pattern, r)
    ensures forall i: nat :: from <= i && (r < 0 || i < r) ==> !Occurs(Lower(text), pattern, i)
  {
    var start: nat := if from < 0 then 0 else from;
    if start > |text| then -1
    else
      IndexAfter(Lower(text), pattern, start);
      match Index(Lower(text)[start..], pattern)
      case None => -1
      case Some(n) => start + n
  }

  /** lastMatchAtMost. */
  method LastMatchAtMost(text: string, pattern: string, limit: int) returns (r: int)
    ensures r >= 0 ==> r <= limit && Occurs(Lower(text), pattern, r)
    ensures forall i: nat :: r < i <= limit ==> !Occurs(Lower(text), pattern, i)
  {
    if limit < 0 {
      return -1;
    }
    var lower := Lower(text);
    var i := if limit > |lower| then |lower| else limit;
    while i >= 0
      invariant -1 <= i <= limit && i <= |lower|
      invariant forall j: nat :: i < j <= limit ==> !Occurs(lower, pattern, j)
    {
      if pattern <= lower[i..] {
        return i;
      }
      i := i - 1;
    }
    return -1;
  }

  // ------------------------------------------------------------- the nearest hit

  /** q lies beyond p in the direction of search, or at p when that counts. */
  predicate Beyond(p: Place, q: Place, backward: bool, inclusive: bool) {
    (if backward then Less(q, p) else Less(p, q)) || (inclusive && p == q)
  }

  /** r is the nearest hit beyond p: no hit lies between. */
  ghost predicate Nearest(m: Model, p: Place, backward: bool, inclusive: bool, r: Option<Place>) {
    && (r.Some? ==> m.Hit(r.value) && Beyond(p, r.value, backward, inclusive))
    && (forall q :: m.Hit(q) && Beyond(p, q, backward, inclusive) ==>
          r.Some? && (q == r.value || Beyond(r.value, q, backward, false)))
  }

  method FindBack(m: Model, p: Place, inclusive: bool) returns (r: Option<Place>)
    requires m.searchBuf != "" && p.line <= |m.history|
    ensures Nearest(m, p, true, inclusive, r)
  {
    var pattern := Lower(m.searchBuf);
    var pos := LastMatchAtMost(m.LineAt(p.line), pattern, if inclusive then p.off else p.off - 1);
    if pos >= 0 {
      return Some(Place(p.line, pos));
    }
    var line := p.line - 1;
    while line >= 0
      invariant -1 <= line < p.line
      invariant forall q :: m.Hit(q) && Beyond(p, q, true, inclusive) ==> q.line <= line
    {
      var text := m.LineAt(line);
      pos := LastMatchAtMost(text, pattern, |text|);
      if pos >= 0 {
        return Some(Place(line, pos));
      }
      line := line - 1;
    }
    return None;
  }

  method FindForward(m: Model, p: Place, inclusive: bool) returns (r: Option<Place>)
    requires m.searchBuf != "" && p.line <= |m.history|
    ensures Nearest(m, p, false, inclusive, r)
  {
    hide FirstMatchAtLeast, Index;
    var pattern := Lower(m.searchBuf);
    var pos := FirstMatchAtLeast(m.LineAt(p.line), pattern, if inclusive then p.off else p.off + 1);
    if pos >= 0 {
      return Some(Place(p.line, pos));
    }
    var line := p.line + 1;
    while line <= |m.history|
      invariant p.line < line <= |m.history| + 1
      invariant forall q :: m.Hit(q) && Beyond(p, q, false, inclusive) ==> q.line >= line
    {
      pos := FirstMatchAtLeast(m.LineAt(line), pattern, 0);
      if pos >= 0 {
        return Some(Place(line, pos));
      }
      line := line + 1;
    }
    return None;
  }

  /** searchFind: the lexicographic predecessor or successor among all the hits. */
  method SearchFind(m: Model, p: Place, backward: bool, inclusive: bool) returns (r: Option<Place>)
    requires p.line <= |m.history|
    ensures Nearest(m, p, backward, inclusive, r)
  {
    if m.searchBuf == "" {
      return None;
    }
    if backward {
      r := FindBack(m, p, inclusive);
    } else {
      r := FindForward(m, p, inclusive);
    }
  }

  /** What a search from m's place does to m. */
  ghost predicate Moves(m: Model, backward: bool, inclusive: bool, n: Model) {
    exists r :: Nearest(m, m.Here(), backward, inclusive, r)
      && n == if r.Some? then m.WithResult(r.value) else m
  }

  /** searchStep. */
  method SearchStep(m: Model, backward: bool) returns (n: Model)
    requires m.Ok()
    ensures n.Ok()
    ensures Moves(m, backward, false, n)
  {
    if m.searchBuf == "" {
      assert Nearest(m, m.Here(), backward, false, None);
      return m;
    }
    var r := SearchFind(m, m.Here(), backward, false);
    n := if r.Some? then m.WithResult(r.value) else m;
  }

  /** searchRefresh, after the pattern changed. */
  method SearchRefresh(m: Model) returns (n: Model)
    requires m.Ok()
    ensures n.Ok()
    ensures m.searchBuf != "" ==> Moves(m, m.searchBack, true, n)
    ensures m.searchBuf == "" ==> n.Here() == Place(|m.history|, |m.searchSave|) && n.inputValue == m.searchSave
  {
    if m.searchBuf == "" {
      return m.(inputValue := m.searchSave, inputCursor := |m.searchSave|,
                searchIdx := -1, searchPos := |m.searchSave|);
    }
    var r := SearchFind(m, m.Here(), m.searchBack, true);
    n := if r.Some? then m.WithResult(r.value) else m;
  }

  // ------------------------------------------------------------- repeated C-r and C-s

  /** A run of presses of one key. */
  ghost predicate Pressed(ms: seq<Model>, backward: bool) {
    && ms != []
    && forall k {:trigger ms[k]} :: 0 <= k < |ms| - 1 ==> Moves(ms[k], backward, false, ms[k + 1])
  }

  predicate SameSearch(m: Model, n: Model) {
    n == m.(searchIdx := n.searchIdx, searchPos := n.searchPos,
            inputValue := n.inputValue, inputCursor := n.inputCursor)
  }

  lemma SameHits(m: Model, n: Model)
    requires SameSearch(m, n)
    ensures forall p :: m.Hit(p) <==> n.Hit(p)
  {
  }

  lemma MoveKeepsSearch(m: Model, backward: bool, inclusive: bool, n: Model)
    requires Moves(m, backward, inclusive, n)
    ensures SameSearch(m, n)
  {
  }

  lemma SameSearchJoins(a: Model, b: Model, c: Model)
    requires SameSearch(a, b) && SameSearch(b, c)
    ensures SameSearch(a, c)
  {
  }

  lemma {:induction false} RunKeepsSearch(ms: seq<Model>, backward: bool, k: nat)
    requires Pressed(ms, backward) && k < |ms|
    ensures SameSearch(ms[0], ms[k])
  {
    if k > 0 {
      RunKeepsSearch(ms, backward, k - 1);
      assert Moves(ms[k - 1], backward, false, ms[k]);
      MoveKeepsSearch(ms[k - 1], backward, false, ms[k]);
      SameSearchJoins(ms[0], ms[k - 1], ms[k]);
    }
  }

  /** After k presses, the hits passed are exactly the places the presses stopped at. */
  lemma {:induction false} VisitsEveryHit(ms: seq<Model>, backward: bool, k: nat, q: Place)
    requires Pressed(ms, backward) && k < |ms|
    requires ms[0].Hit(q) && Beyond(ms[0].Here(), q, backward, false) && !Beyond(ms[k].Here(), q, backward, false)
    ensures exists j :: 0 < j <= k && ms[j].Here() == q
  {
    hide *;
    if k > 0 && Beyond(ms[k - 1].Here(), q, backward, false) {
      RunKeepsSearch(ms, backward, k - 1);
      SameHits(ms[0], ms[k - 1]);
      PressMoves(ms, backward, k - 1);
      PassedIsVisited(ms[k - 1], ms[k], backward, q);
    } else if k > 0 {
      VisitsEveryHit(ms, backward, k - 1, q);
    }
  }

  lemma PressMoves(ms: seq<Model>, backward: bool, i: nat)
    requires Pressed(ms, backward) && i + 1 < |ms|
    ensures Moves(ms[i], backward, false, ms[i + 1])
  {
  }

  /** A press does not pass a hit without stopping at it. */
  lemma PassedIsVisited(m: Model, n: Model, backward: bool, q: Place)
    requires Moves(m, backward, false, n) && m.Hit(q)
    requires Beyond(m.Here(), q, backward, false) && !Beyond(n.Here(), q, backward, false)
    ensures n.Here() == q
  {
  }

  /** Presses stop only at hits, and never twice at one: each press goes further or, when there is
      nothing further, changes nothing at all. */
  lemma {:induction false} StopsOnlyAtHits(ms: seq<Model>, backward: bool, i: nat, k: nat)
    requires Pressed(ms, backward) && i < k < |ms|
    ensures ms[k] == ms[i] || (ms[0].Hit(ms[k].Here()) && Beyond(ms[i].Here(), ms[k].Here(), backward, false))
  {
    RunKeepsSearch(ms, backward, k - 1);
    SameHits(ms[0], ms[k - 1]);
    if i < k - 1 {
      StopsOnlyAtHits(ms, backward, i, k - 1);
    }
  }

  /** A press that changes nothing means that every hit beyond the start has been visited. */
  lemma StuckMeansDone(ms: seq<Model>, backward: bool, k: nat, q: Place)
    requires Pressed(ms, backward) && k + 1 < |ms| && ms[k + 1] == ms[k]
    requires ms[0].Hit(q) && Beyond(ms[0].Here(), q, backward, false)
    ensures exists j :: 0 < j <= k && ms[j].Here() == q
  {
    RunKeepsSearch(ms, backward, k);
    SameHits(ms[0], ms[k]);
    assert !Beyond(ms[k].Here(), q, backward, false);
    VisitsEveryHit(ms, backward, k, q);
  }

  /** The characters of the searched lines before p. */
  function Rank(m: Model, p: Place): nat
    decreases p.line
  {
    p.off + if p.line == 0 then 0 else Rank(m, Place(p.line - 1, |m.LineAt(p.line - 1)| + 1))
  }

  lemma {:induction false} RankOrders(m: Model, p: Place, q: Place)
    requires Less(p, q) && p.off <= |m.LineAt(p.line)|
    ensures Rank(m, p) < Rank(m, q)
    decreases q.line
  {
    if p.line < q.line {
      var last := Place(q.line - 1, |m.LineAt(q.line - 1)| + 1);
      RankOrders(m, p, last);
    }
  }

  /** The end of the current line, the last place there is. */
  function End(m: Model): Place {
    Place(|m.history|, |m.searchSave|)
  }

  /** The characters from p on in the direction of search. */
  function Left(m: Model, p: Place, backward: bool): int {
    if backward then Rank(m, p) else Rank(m, End(m)) - Rank(m, p)
  }

  predicate InLine(m: Model, p: Place) {
    p.line <= |m.history| && p.off <= |m.LineAt(p.line)|
  }

  lemma LeftFalls(m: Model, p: Place, q: Place, backward: bool)
    requires InLine(m, p) && InLine(m, q) && Beyond(p, q, backward, false)
    ensures 0 <= Left(m, q, backward) < Left(m, p, backward)
  {
    if backward {
      RankOrders(m, q, p);
    } else {
      RankOrders(m, p, q);
      if Less(q, End(m)) { RankOrders(m, q, End(m)); }
    }
  }

  /** Repeated presses of C-r, or of C-s, stop: among more presses than characters ahead of the
      start, one finds nothing further, and then every hit ahead has been visited. */
  lemma {:induction false} RepeatsStop(ms: seq<Model>, backward: bool, k: nat) returns (stuck: nat)
    requires Pressed(ms, backward) && ms[0].Ok() && k < |ms| && Left(ms[0], ms[0].Here(), backward) < k
    ensures stuck < k && ms[stuck + 1] == ms[stuck]
    ensures forall q :: ms[0].Hit(q) && Beyond(ms[0].Here(), q, backward, false) ==>
      exists j :: 0 < j <= stuck && ms[j].Here() == q
  {
    LeftNotNegative(ms[0], ms[0].Here(), backward);
    stuck := FirstStuck(ms, backward, 0, k);
    forall q | ms[0].Hit(q) && Beyond(ms[0].Here(), q, backward, false)
      ensures exists j :: 0 < j <= stuck && ms[j].Here() == q
    {
      StuckMeansDone(ms, backward, stuck, q);
    }
  }

  lemma {:induction false} FirstStuck(ms: seq<Model>, backward: bool, i: nat, k: nat) returns (stuck: nat)
    requires Pressed(ms, backward) && i <= k < |ms| && InLine(ms[0], ms[i].Here())
    requires 0 <= Left(ms[0], ms[i].Here(), backward) < k - i
    ensures i <= stuck < k && ms[stuck + 1] == ms[stuck]
    decreases k - i
  {
    hide *;
    if ms[i + 1] == ms[i] {
      return i;
    }
    PressGoesOn(ms, backward, i);
    stuck := FirstStuck(ms, backward, i + 1, k);
  }

  lemma PressGoesOn(ms: seq<Model>, backward: bool, i: nat)
    requires Pressed(ms, backward) && i + 1 < |ms| && ms[i + 1] != ms[i] && InLine(ms[0], ms[i].Here())
    ensures InLine(ms[0], ms[i + 1].Here())
    ensures 0 <= Left(ms[0], ms[i + 1].Here(), backward) < Left(ms[0], ms[i].Here(), backward)
  {
    StopsOnlyAtHits(ms, backward, i, i + 1);
    hide Rank, Pressed, Left;
    LeftFalls(ms[0], ms[i].Here(), ms[i + 1].Here(), backward);
  }

  lemma LeftNotNegative(m: Model, p: Place, backward: bool)
    requires InLine(m, p)
    ensures 0 <= Left(m, p, backward)
  {
    if !backward && Less(p, End(m)) { RankOrders(m, p, End(m)); }
  }

  /** The place shown is a hit, in full. */
  predicate AtHit(m: Model) {
    m.Ok() && m.Hit(m.Here()) && m.inputValue == m.LineAt(m.Linear()) && m.inputCursor == m.searchPos
  }

  /** A C-s right after a C-r that moved, and the other way round, is back at the same hit with
      nothing changed. */
  lemma ThereAndBack(a: Model, b: Model, c: Model, backward: bool)
    requires AtHit(a) && a != b
    requires Moves(a, backward, false, b) && Moves(b, !backward, false, c)
    ensures c == a
  {
    MoveKeepsSearch(a, backward, false, b);
    MoveKeepsSearch(b, !backward, false, c);
    SameHits(a, b);
    assert b.Hit(a.Here()) && Beyond(b.Here(), a.Here(), !backward, false);
    forall q | a.Hit(q) && Beyond(b.Here(), q, !backward, false)
      ensures q == a.Here() || Beyond(a.Here(), q, !backward, false)
    {
    }
    assert c.Here() == a.Here();
  }

  /** A longer pattern has fewer hits, so that typing moves no closer than where the search is. */
  lemma LongerPatternFewerHits(m: Model, more: string, p: Place)
    requires m.searchBuf != "" && m.(searchBuf := m.searchBuf + more).Hit(p)
    ensures m.Hit(p)
  {
    assert Lower(m.searchBuf + more)[..|m.searchBuf|] == Lower(m.searchBuf);
  }

  // ------------------------------------------------------------- the highlighted match

  /** searchMatchSpan: the shown stretch is the pattern, bar case. */
  function MatchSpan(m: Model): (r: Option<(nat, nat)>)
    ensures r.Some? ==> r.value.0 == m.searchPos && r.value.0 < r.value.1 <= |m.inputValue|
    ensures r.Some? ==> SameBarCase(m.inputValue[r.value.0..r.value.1], m.searchBuf)
  {
    if !m.searchMode || m.searchBuf == "" || m.searchPos > |m.inputValue| then None
    else if !(Lower(m.searchBuf) <= Lower(m.inputValue[m.searchPos..])) then None
    else
      var end := m.searchPos + |m.searchBuf|;
      var stop := if end > |m.inputValue| then |m.inputValue| else end;
      assert Lower(m.inputValue[m.searchPos..])[..|m.searchBuf|] == Lower(m.inputValue[m.searchPos..stop]);
      LowerIsFolding(m.inputValue[m.searchPos..stop], m.searchBuf);
      Some((m.searchPos, stop))
  }

  /** While the place shown is a hit it is highlighted; in particular after a search that found
      something. */
  lemma HitsAreHighlighted(m: Model)
    requires m.searchMode && AtHit(m)
    ensures MatchSpan(m) == Some((m.searchPos, m.searchPos + |m.searchBuf|))
  {
    assert Lower(m.inputValue)[m.searchPos..] == Lower(m.inputValue[m.searchPos..]);
  }
}
