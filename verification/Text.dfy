/** Strings as the Go code uses them, one char per byte, with ASCII white space and case folding. */
module Text {
  datatype Option<+T> = None | Some(value: T)

  /** unicode.IsSpace of the characters of one byte. */
  predicate IsSpace(c: char) {
    c == ' ' || '\t' <= c <= '\r'
  }

  lemma SpaceIff(c: char)
    ensures IsSpace(c) <==> c in {' ', '\t', '\n', '\r', 11 as char, 12 as char}
  {
    assert '\t' as int == 9 && '\n' as int == 10 && '\r' as int == 13;
  }

  predicate AllSpace(s: string) {
    forall i :: 0 <= i < |s| ==> IsSpace(s[i])
  }

  predicate IsDigit(c: char) {
    '0' <= c <= '9'
  }

  function LowerChar(c: char): char {
    if 'A' <= c <= 'Z' then (c as int + 32) as char else c
  }

  function Lower(s: string): (r: string)
    ensures |r| == |s|
    ensures forall i :: 0 <= i < |s| ==> r[i] == LowerChar(s[i])
  {
    seq(|s|, i requires 0 <= i < |s| => LowerChar(s[i]))
  }

  /** The same letter, large and small. */
  predicate CasePair(c: char, d: char) {
    'A' <= c <= 'Z' && d as int == c as int + 32
  }

  /** The same text bar case: of one length, and at each place the same character or the two cases of
      one ASCII letter. */
  predicate SameBarCase(s: string, t: string) {
    |s| == |t| && forall i :: 0 <= i < |s| ==> s[i] == t[i] || CasePair(s[i], t[i]) || CasePair(t[i], s[i])
  }

  lemma LowerSameIff(c: char, d: char)
    ensures LowerChar(c) == LowerChar(d) <==> c == d || CasePair(c, d) || CasePair(d, c)
  {
  }

  /** Lowering forgets the case of letters and nothing else, and leaves no capital. */
  lemma LowerIsFolding(s: string, t: string)
    ensures Lower(s) == Lower(t) <==> SameBarCase(s, t)
    ensures SameBarCase(Lower(s), s) && forall i :: 0 <= i < |s| ==> !('A' <= Lower(s)[i] <= 'Z')
  {
    if |s| == |t| {
      forall i | 0 <= i < |s| ensures Lower(s)[i] == Lower(t)[i]
                                      <==> s[i] == t[i] || CasePair(s[i], t[i]) || CasePair(t[i], s[i]) {
        LowerSameIff(s[i], t[i]);
      }
    }
    if SameBarCase(s, t) { assert Lower(s) == Lower(t); }
  }

  /** Length of the longest prefix whose characters all satisfy p. */
  function Span(s: string, p: char -> bool): (n: nat)
    ensures n <= |s|
    ensures forall i :: 0 <= i < n ==> p(s[i])
    ensures n < |s| ==> !p(s[n])
  {
    if s == "" || !p(s[0]) then 0 else 1 + Span(s[1..], p)
  }

  lemma SpanIs(s: string, p: char -> bool, n: nat)
    requires n <= |s|
    requires forall i :: 0 <= i < n ==> p(s[i])
    requires n < |s| ==> !p(s[n])
    ensures Span(s, p) == n
  {
  }

  function TrimLeft(s: string): (r: string)
    ensures |r| <= |s| && r == s[|s| - |r|..]
    ensures r != "" ==> !IsSpace(r[0])
  {
    if s != "" && IsSpace(s[0]) then TrimLeft(s[1..]) else s
  }

  function TrimRight(s: string): (r: string)
    ensures r <= s
    ensures r != "" ==> !IsSpace(r[|r| - 1])
  {
    if s != "" && IsSpace(s[|s| - 1]) then TrimRight(s[..|s| - 1]) else s
  }

  function Trim(s: string): string {
    TrimRight(TrimLeft(s))
  }

  predicate Trimmed(s: string) {
    s != "" ==> !IsSpace(s[0]) && !IsSpace(s[|s| - 1])
  }

  lemma {:induction false} TrimLeftIs(s: string)
    ensures AllSpace(s[..|s| - |TrimLeft(s)|])
  {
    if s != "" && IsSpace(s[0]) {
      TrimLeftIs(s[1..]);
      var n := |s| - |TrimLeft(s)|;
      assert s[..n] == [s[0]] + s[1..][..n - 1];
    }
  }

  lemma {:induction false} TrimRightIs(s: string)
    ensures AllSpace(s[|TrimRight(s)|..])
  {
    if s != "" && IsSpace(s[|s| - 1]) {
      TrimRightIs(s[..|s| - 1]);
      var n := |TrimRight(s)|;
      assert s[n..] == s[..|s| - 1][n..] + [s[|s| - 1]];
    }
  }

  /** Trimming takes the white space off both ends and nothing else. */
  lemma TrimIs(s: string) returns (left: string, right: string)
    ensures s == left + Trim(s) + right && AllSpace(left) && AllSpace(right) && Trimmed(Trim(s))
  {
    hide TrimLeft, TrimRight, AllSpace, IsSpace;
    var t := TrimLeft(s);
    left, right := s[..|s| - |t|], t[|Trim(s)|..];
    TrimLeftIs(s);
    TrimRightIs(t);
    Parts(s, t, Trim(s));
  }

  lemma Parts(s: string, t: string, u: string)
    requires |u| <= |t| <= |s| && t == s[|s| - |t|..] && u <= t
    ensures s == s[..|s| - |t|] + u + t[|u|..]
  {
    assert t == u + t[|u|..];
    assert s == s[..|s| - |t|] + t;
  }

  /** Where sub first occurs in s. */
  function Index(s: string, sub: string): (r: Option<nat>)
    ensures r.Some? ==> r.value <= |s| && sub <= s[r.value..]
    ensures r.Some? ==> forall i :: 0 <= i < r.value ==> !(sub <= s[i..])
    ensures r.None? ==> forall i :: 0 <= i <= |s| ==> !(sub <= s[i..])
  {
    if sub <= s then assert s[0..] == s; Some(0)
    else if s == "" then None
    else
      var rest := Index(s[1..], sub);
      assert forall i :: 1 <= i <= |s| ==> s[1..][i - 1..] == s[i..];
      assert s[0..] == s;
      match rest
      case None => None
      case Some(n) => Some(n + 1)
  }

  function Digit(d: nat): char
    requires d < 10
  {
    ('0' as int + d) as char
  }

  /** %d of a natural number. */
  function Decimal(n: nat): (s: string)
    ensures s != "" && forall i :: 0 <= i < |s| ==> IsDigit(s[i])
  {
    if n < 10 then [Digit(n)] else Decimal(n / 10) + [Digit(n % 10)]
  }

  function Itoa(n: int): string {
    if n < 0 then "-" + Decimal(-n) else Decimal(n)
  }

  /** The number a run of digits denotes, without the bound of a machine word. */
  function Number(s: string): nat
    requires forall i :: 0 <= i < |s| ==> IsDigit(s[i])
  {
    if s == "" then 0
    else assert IsDigit(s[|s| - 1]); Number(s[..|s| - 1]) * 10 + (s[|s| - 1] as int - '0' as int)
  }

  predicate AllDigits(s: string) {
    s != "" && forall i :: 0 <= i < |s| ==> IsDigit(s[i])
  }

  /** strconv.Atoi: an optional sign and at least one digit. */
  function Atoi(s: string): Option<int> {
    if AllDigits(s) then Some(Number(s) as int)
    else if s != "" && s[0] == '-' && AllDigits(s[1..]) then
      var n: int := -(Number(s[1..]) as int);
      Some(n)
    else if s != "" && s[0] == '+' && AllDigits(s[1..]) then Some(Number(s[1..]) as int)
    else None
  }

  lemma {:induction false} NumberOfDecimal(n: nat)
    ensures Number(Decimal(n)) == n
  {
    var s := Decimal(n);
    if n >= 10 {
      NumberOfDecimal(n / 10);
      assert s[..|s| - 1] == Decimal(n / 10);
    } else {
      assert s[..0] == "";
    }
  }

  lemma AtoiOfItoa(n: int)
    ensures Atoi(Itoa(n)) == Some(n)
  {
    if n < 0 {
      NumberOfDecimal(-n);
      assert Itoa(n)[1..] == Decimal(-n) && Itoa(n)[0] == '-';
    } else {
      NumberOfDecimal(n);
    }
  }

  function PowerOfTen(n: nat): nat {
    if n == 0 then 1 else 10 * PowerOfTen(n - 1)
  }

  /** What digits come to, each by its place. */
  function ByPlace(d: string): nat
    requires forall i :: 0 <= i < |d| ==> '0' <= d[i] <= '9'
  {
    if d == "" then 0 else (d[0] as int - 48) * PowerOfTen(|d| - 1) + ByPlace(d[1..])
  }

  lemma {:induction false} OnePlaceMore(d: string, c: char)
    requires (forall i :: 0 <= i < |d| ==> '0' <= d[i] <= '9') && '0' <= c <= '9'
    ensures ByPlace(d + [c]) == 10 * ByPlace(d) + (c as int - 48)
  {
    if d == "" {
      assert ("" + [c])[1..] == "" && PowerOfTen(0) == 1;
    } else {
      assert (d + [c])[1..] == d[1..] + [c];
      OnePlaceMore(d[1..], c);
      TenTimes(d[0] as int - 48, PowerOfTen(|d| - 1));
    }
  }

  lemma TenTimes(a: int, p: int)
    ensures a * (10 * p) == 10 * (a * p)
  {
  }

  lemma {:induction false} NumberIsByPlace(d: string)
    requires forall i :: 0 <= i < |d| ==> IsDigit(d[i])
    ensures Number(d) == ByPlace(d)
  {
    if d != "" {
      NumberIsByPlace(d[..|d| - 1]);
      assert d == d[..|d| - 1] + [d[|d| - 1]];
      OnePlaceMore(d[..|d| - 1], d[|d| - 1]);
    }
  }

  predicate IsDigits(d: string) {
    d != "" && forall i :: 0 <= i < |d| ==> '0' <= d[i] <= '9'
  }

  /** Digits, after a sign or none, that come to n. */
  ghost predicate IsNumeral(s: string, n: int) {
    exists d: string :: IsDigits(d) &&
      (((s == d || s == "+" + d) && n == ByPlace(d)) || (s == "-" + d && n + ByPlace(d) == 0))
  }

  /** Exactly the numerals are read, as what they come to. */
  lemma AtoiIff(s: string, n: int)
    ensures Atoi(s) == Some(n) <==> IsNumeral(s, n)
  {
    hide ByPlace, Number;
    if Atoi(s) == Some(n) { NumeralOf(s, n); }
    if IsNumeral(s, n) {
      var d: string :| IsDigits(d) &&
        (((s == d || s == "+" + d) && n == ByPlace(d)) || (s == "-" + d && n + ByPlace(d) == 0));
      AtoiOfDigits(d);
    }
  }

  lemma AtoiOfDigits(d: string)
    requires IsDigits(d)
    ensures Atoi(d) == Atoi("+" + d) == Some(ByPlace(d)) && Atoi("-" + d).Some?
    ensures Atoi("-" + d).value + ByPlace(d) == 0
  {
    hide ByPlace, Number;
    NumberIsByPlace(d);
    assert ("+" + d)[1..] == d && ("-" + d)[1..] == d;
    assert !IsDigit(("+" + d)[0]) && !IsDigit(("-" + d)[0]);
  }

  lemma NumeralOf(s: string, n: int)
    requires Atoi(s) == Some(n)
    ensures IsNumeral(s, n)
  {
    hide ByPlace, Number;
    if AllDigits(s) {
      NumberIsByPlace(s);
      assert IsDigits(s);
    } else {
      NumberIsByPlace(s[1..]);
      assert s == [s[0]] + s[1..] && IsDigits(s[1..]);
    }
  }

  function Except(sep: char): char -> bool {
    c => c != sep
  }

  function Split(s: string, sep: char): (parts: seq<string>)
    ensures parts != []
    ensures forall p :: p in parts ==> sep !in p
  {
    var n := Span(s, Except(sep));
    if n == |s| then [s] else [s[..n]] + Split(s[n + 1..], sep)
  }

  function Join(parts: seq<string>, sep: string): string {
    if parts == [] then "" else if |parts| == 1 then parts[0] else parts[0] + sep + Join(parts[1..], sep)
  }

  lemma {:induction false} SplitOfJoin(parts: seq<string>, sep: char)
    requires parts != [] && forall p :: p in parts ==> sep !in p
    ensures Split(Join(parts, [sep]), sep) == parts
  {
    var s := Join(parts, [sep]);
    assert forall i :: 0 <= i < |parts[0]| ==> parts[0][i] in parts[0];
    if |parts| == 1 {
      SpanIs(s, Except(sep), |s|);
    } else {
      var rest := Join(parts[1..], [sep]);
      assert s == parts[0] + [sep] + rest;
      SpanIs(s, Except(sep), |parts[0]|);
      SplitOfJoin(parts[1..], sep);
      assert s[|parts[0]| + 1..] == rest && s[..|parts[0]|] == parts[0];
    }
  }

  lemma AroundAt(s: string, n: nat)
    requires n < |s|
    ensures s[..n] + [s[n]] + s[n + 1..] == s
  {
  }

  lemma JoinCons(part: string, parts: seq<string>, sep: string)
    requires parts != []
    ensures Join([part] + parts, sep) == part + sep + Join(parts, sep)
  {
  }

  lemma {:induction false} JoinOfSplit(s: string, sep: char)
    ensures Join(Split(s, sep), [sep]) == s
    decreases |s|
  {
    var n := Span(s, Except(sep));
    if n < |s| {
      assert s[n] == sep && Split(s, sep) == [s[..n]] + Split(s[n + 1..], sep);
      hide *;
      JoinOfSplit(s[n + 1..], sep);
      JoinCons(s[..n], Split(s[n + 1..], sep), [sep]);
      AroundAt(s, n);
    }
  }
}
