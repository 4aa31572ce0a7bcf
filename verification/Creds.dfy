/** The saved-passwords file (internal/tui/creds/file.go).

    Its content is a string here, lines joined by newlines. A line is an account -- host, user and
    password, separated by tabs -- or a comment, or something that is neither and not kept. The
    comments before the first account are the header, which every rewriting puts back; a file
    without one gets a default header. Names are trimmed when they are read and compared with case
    folded, and the first account that matches is the one meant. */
module Creds {
  import opened Text

  datatype Entry = Entry(host: string, user: string, password: string)

  /** What a file without a header of its own is given; the wording is shortened. */
  const DEFAULT_HEADER := ["# saved passwords", "# between tabs"]

  // ------------------------------------------------------------- blanks and comments

  /** The first character that is not white space. */
  function Head(s: string): Option<char> {
    if s == "" then None else if IsSpace(s[0]) then Head(s[1..]) else Some(s[0])
  }

  lemma {:induction false} HeadConcat(a: string, b: string)
    ensures Head(a + b) == if Head(a).Some? then Head(a) else Head(b)
  {
    if a == "" {
      assert a + b == b;
    } else if IsSpace(a[0]) {
      HeadConcat(a[1..], b);
      assert (a + b)[1..] == a[1..] + b;
    }
  }

  lemma {:induction false} HeadTrimLeft(s: string)
    ensures Head(TrimLeft(s)) == Head(s)
    ensures TrimLeft(s) == "" <==> Head(s).None?
  {
    if s != "" && IsSpace(s[0]) {
      HeadTrimLeft(s[1..]);
    }
  }

  lemma BlankHead(s: string)
    requires |s| == 1 && IsSpace(s[0])
    ensures Head(s).None?
  {
    assert s[1..] == "";
  }

  lemma {:induction false} HeadTrimRight(s: string)
    ensures Head(TrimRight(s)) == Head(s)
    decreases |s|
  {
    hide IsSpace;
    if s != "" && IsSpace(s[|s| - 1]) {
      var most, last := s[..|s| - 1], s[|s| - 1..];
      HeadTrimRight(most);
      BlankHead(last);
      assert s == most + last;
      HeadConcat(most, last);
    }
  }

  lemma HeadTrim(s: string)
    ensures Head(Trim(s)) == Head(s)
    ensures Trim(s) == "" <==> Head(s).None?
    ensures Trim(s) != "" ==> Head(s) == Some(Trim(s)[0])
  {
    HeadTrimLeft(s);
    HeadTrimRight(TrimLeft(s));
    TrimIsTrimmed(s);
  }

  lemma TrimIsTrimmed(s: string)
    ensures Trimmed(Trim(s))
    ensures forall i :: 0 <= i < |Trim(s)| ==> Trim(s)[i] in s
  {
  }

  lemma TrimOfTrimmed(s: string)
    requires Trimmed(s)
    ensures Trim(s) == s
  {
  }

  // ------------------------------------------------------------- reading

  predicate Comment(line: string) {
    Head(line) == Some('#')
  }

  /** Blank lines and comments carry no account. */
  predicate Skipped(line: string) {
    Head(line).None? || Comment(line)
  }

  /** As the code tells them apart. */
  lemma SkippedIsTrimmed(line: string)
    ensures Comment(line) <==> "#" <= Trim(line)
    ensures Skipped(line) <==> Trim(line) == "" || "#" <= Trim(line)
  {
    HeadTrim(line);
  }

  /** strings.SplitN(line, "\t", 3), when there are three parts. */
  function Fields(line: string): (r: Option<Entry>)
    ensures r.Some? ==> line == r.value.host + "\t" + r.value.user + "\t" + r.value.password
    ensures r.Some? ==> '\t' !in r.value.host && '\t' !in r.value.user
  {
    var i := Span(line, Except('\t'));
    if i == |line| then None
    else
      var rest := line[i + 1..];
      var j := Span(rest, Except('\t'));
      if j == |rest| then None else Some(Entry(line[..i], rest[..j], rest[j + 1..]))
  }

  /** Exactly the lines with two tabs have three fields. */
  lemma FieldsIff(line: string)
    ensures Fields(line).Some? <==> exists i, j :: 0 <= i < j < |line| && line[i] == '\t' == line[j]
  {
    var i := Span(line, Except('\t'));
    if i < |line| {
      var rest := line[i + 1..];
      var j := Span(rest, Except('\t'));
      assert forall k :: i < k < |line| ==> line[k] == rest[k - i - 1];
      assert j < |rest| ==> line[i] == '\t' == line[i + 1 + j];
    }
  }

  function LineEntries(line: string): seq<Entry> {
    if Skipped(line) then []
    else
      match Fields(line)
      case None => []
      case Some(f) => [Entry(Trim(f.host), Trim(f.user), f.password)]
  }

  datatype Contents = Contents(entries: seq<Entry>, header: seq<string>)

  /** One line more. */
  function Take(c: Contents, line: string): Contents {
    if Skipped(line) then
      if c.entries == [] && Comment(line) then c.(header := c.header + [line]) else c
    else c.(entries := c.entries + LineEntries(line))
  }

  function Taken(lines: seq<string>): Contents {
    if lines == [] then Contents([], []) else Take(Taken(lines[..|lines| - 1]), lines[|lines| - 1])
  }

  function Read(content: string): Contents {
    Taken(Split(content, '\n'))
  }

  // ------------------------------------------------------------- writing

  function Line(e: Entry): string {
    e.host + "\t" + e.user + "\t" + e.password
  }

  function Lines(es: seq<Entry>): (ls: seq<string>)
    ensures |ls| == |es| && forall i :: 0 <= i < |es| ==> ls[i] == Line(es[i])
  {
    seq(|es|, i requires 0 <= i < |es| => Line(es[i]))
  }

  function HeaderLines(header: seq<string>): seq<string> {
    if header != [] then header else DEFAULT_HEADER
  }

  function Body(es: seq<Entry>): string {
    if es == [] then "" else Body(es[..|es| - 1]) + Line(es[|es| - 1]) + "\n"
  }

  function Write(es: seq<Entry>, header: seq<string>): string {
    Join(HeaderLines(header), "\n") + "\n" + Body(es)
  }

  /** An entry that a line of the file can stand for. */
  predicate Representable(e: Entry) {
    && Trimmed(e.host) && Trimmed(e.user)
    && '\t' !in e.host && '\t' !in e.user
    && '\n' !in e.host && '\n' !in e.user && '\n' !in e.password
    && !Skipped(Line(e))
  }

  predicate HeaderOk(header: seq<string>) {
    forall i :: 0 <= i < |header| ==> '\n' !in header[i] && Comment(header[i])
  }

  // ------------------------------------------------------------- lines

  lemma HeadOfLine(e: Entry)
    ensures Head(Line(e)) ==
              if Head(e.host).Some? then Head(e.host) else if Head(e.user).Some? then Head(e.user) else Head(e.password)
  {
    HeadConcat(e.host + "\t" + e.user + "\t", e.password);
    HeadConcat(e.host + "\t" + e.user, "\t");
    HeadConcat(e.host + "\t", e.user);
    HeadConcat(e.host, "\t");
  }

  lemma FirstField(a: string, b: string)
    requires '\t' !in a
    ensures Span(a + "\t" + b, Except('\t')) == |a|
    ensures (a + "\t" + b)[..|a|] == a && (a + "\t" + b)[|a| + 1..] == b
  {
    assert forall i :: 0 <= i < |a| ==> a[i] in a;
    SpanIs(a + "\t" + b, Except('\t'), |a|);
  }

  lemma LineSplits(e: Entry)
    ensures Line(e) == e.host + "\t" + (e.user + "\t" + e.password)
  {
  }

  lemma FieldsOfLine(e: Entry)
    requires '\t' !in e.host && '\t' !in e.user
    ensures Fields(Line(e)) == Some(e)
  {
    var rest := e.user + "\t" + e.password;
    FirstField(e.host, rest);
    FirstField(e.user, e.password);
    LineSplits(e);
    hide Span, Line;
  }

  /** What the line of any tab-free entry is read as. */
  lemma LineIsRead(e: Entry)
    requires '\t' !in e.host && '\t' !in e.user
    ensures LineEntries(Line(e)) == if Skipped(Line(e)) then [] else [Entry(Trim(e.host), Trim(e.user), e.password)]
    ensures Representable(e) ==> !Skipped(Line(e)) && LineEntries(Line(e)) == [e]
  {
    FieldsOfLine(e);
    if Representable(e) {
      TrimOfTrimmed(e.host);
      TrimOfTrimmed(e.user);
    }
    hide Trim, Fields, Line;
  }

  /** The entry as trimming leaves it. */
  function Tidy(e: Entry): Entry {
    Entry(Trim(e.host), Trim(e.user), e.password)
  }

  lemma NotInLine(e: Entry, c: char)
    requires c !in Line(e)
    ensures c !in e.host && c !in e.user && c !in e.password
  {
  }

  lemma TrimmedChars(s: string, c: char)
    ensures Trimmed(Trim(s)) && (c !in s ==> c !in Trim(s))
  {
    TrimIsTrimmed(s);
  }

  lemma TidyRepresentable(e: Entry)
    requires '\n' !in Line(e) && '\t' !in e.host && '\t' !in e.user && !Skipped(Line(e))
    ensures Representable(Tidy(e))
  {
    NotInLine(e, '\n');
    HeadOfLine(e);
    HeadOfLine(Tidy(e));
    HeadTrim(e.host);
    HeadTrim(e.user);
    TrimmedChars(e.host, '\n');
    TrimmedChars(e.host, '\t');
    TrimmedChars(e.user, '\n');
    TrimmedChars(e.user, '\t');
    hide Trim, Head, Line, Trimmed;
  }

  lemma ReadFields(line: string)
    requires LineEntries(line) != []
    ensures Fields(line).Some? && !Skipped(line)
    ensures var f := Fields(line).value;
            LineEntries(line) == [Tidy(f)] && line == Line(f) && '\t' !in f.host && '\t' !in f.user
  {
    hide Trim, Span;
  }

  /** What is read of a line is representable. */
  lemma ReadLineRepresentable(line: string)
    requires '\n' !in line
    ensures forall e :: e in LineEntries(line) ==> Representable(e)
  {
    if LineEntries(line) != [] {
      ReadFields(line);
      hide *;
      TidyRepresentable(Fields(line).value);
    }
  }

  // ------------------------------------------------------------- whole files

  /** Whatever is in the file, what is read is representable, and the header is all comments. */
  lemma ReadRepresentable(content: string)
    ensures forall e :: e in Read(content).entries ==> Representable(e)
    ensures HeaderOk(Read(content).header)
  {
    TakenRepresentable(Split(content, '\n'));
  }

  lemma {:induction false} TakenRepresentable(lines: seq<string>)
    requires forall line :: line in lines ==> '\n' !in line
    ensures forall e :: e in Taken(lines).entries ==> Representable(e)
    ensures HeaderOk(Taken(lines).header)
  {
    if lines != [] {
      var m := |lines| - 1;
      assert lines[m] in lines;
      TakenRepresentable(lines[..m]);
      ReadLineRepresentable(lines[m]);
      hide Representable, LineEntries;
    }
  }

  lemma BodySnoc(es: seq<Entry>, e: Entry)
    ensures Body(es + [e]) == Body(es) + Line(e) + "\n"
  {
    hide Line;
    assert (es + [e])[..|es|] == es;
  }

  /** The file written is its header's lines and an account a line. */
  lemma {:induction false} WriteIsLines(es: seq<Entry>, header: seq<string>, last: string)
    requires header != []
    ensures Join(header, "\n") + "\n" + Body(es) + last == Join(header + Lines(es) + [last], "\n")
    decreases |es|
  {
    if es == [] {
      hide Join;
      JoinSnoc(header, last);
      assert header + Lines(es) == header;
      assert Join(header, "\n") + "\n" + Body(es) == Join(header, "\n") + "\n";
    } else {
      hide *;
      var most, e := es[..|es| - 1], es[|es| - 1];
      assert es == most + [e];
      WriteIsLines(most, header, Line(e));
      BodySnoc(most, e);
      LinesSnoc(header, most, e);
      JoinSnoc(header + Lines(es), last);
      Reassociate(Join(header, "\n") + "\n", Body(most), Line(e), last);
    }
  }

  lemma Reassociate(a: string, b: string, c: string, d: string)
    ensures a + (b + c + "\n") + d == (a + b + c) + "\n" + d
  {
  }

  lemma {:induction false} JoinSnoc(parts: seq<string>, last: string)
    requires parts != []
    ensures Join(parts + [last], "\n") == Join(parts, "\n") + "\n" + last
  {
    if |parts| > 1 {
      JoinSnoc(parts[1..], last);
      assert (parts + [last])[1..] == parts[1..] + [last];
    }
  }

  lemma DefaultHeaderOk()
    ensures HeaderOk(DEFAULT_HEADER)
  {
  }

  // ------------------------------------------------------------- round trips

  predicate OnOneLine(e: Entry) {
    '\n' !in Line(e)
  }

  lemma RepresentableOnOneLine(e: Entry)
    requires '\n' !in e.host && '\n' !in e.user && '\n' !in e.password
    ensures OnOneLine(e)
  {
  }

  lemma TakeComment(header: seq<string>, line: string)
    requires Comment(line)
    ensures Take(Contents([], header), line) == Contents([], header + [line])
  {
  }

  lemma HeaderSnoc(header: seq<string>)
    requires HeaderOk(header) && header != []
    ensures var m := |header| - 1;
      HeaderOk(header[..m]) && Comment(header[m]) && header == header[..m] + [header[m]]
  {
    hide Comment;
  }

  lemma {:induction false} HeaderTaken(header: seq<string>)
    requires HeaderOk(header)
    ensures Taken(header) == Contents([], header)
  {
    if header != [] {
      hide *;
      var most, last := header[..|header| - 1], header[|header| - 1];
      HeaderSnoc(header);
      HeaderTaken(most);
      TakeComment(most, last);
      TakenSnoc(most, last);
    }
  }

  lemma LinesSnoc(header: seq<string>, es: seq<Entry>, e: Entry)
    ensures header + Lines(es + [e]) == header + Lines(es) + [Line(e)]
  {
    assert Lines(es + [e]) == Lines(es) + [Line(e)];
  }

  lemma TakenSnoc(lines: seq<string>, line: string)
    ensures Taken(lines + [line]) == Take(Taken(lines), line)
  {
    assert (lines + [line])[..|lines|] == lines;
  }

  lemma TakeAccount(c: Contents, e: Entry)
    requires Representable(e)
    ensures Take(c, Line(e)) == c.(entries := c.entries + [e])
  {
    LineIsRead(e);
  }

  /** Lines of accounts add to the entries only. */
  lemma {:induction false} AccountsTaken(header: seq<string>, es: seq<Entry>)
    requires HeaderOk(header) && forall e :: e in es ==> Representable(e)
    ensures Taken(header + Lines(es)) == Contents(es, header)
    decreases |es|
  {
    if es == [] {
      HeaderTaken(header);
      assert header + Lines(es) == header;
    } else {
      var m := |es| - 1;
      var most, e := es[..m], es[m];
      assert es == most + [e];
      hide *;
      AccountsTaken(header, most);
      LinesSnoc(header, most, e);
      TakenSnoc(header + Lines(most), Line(e));
      TakeAccount(Contents(most, header), e);
    }
  }

  lemma HeaderLinesOk(header: seq<string>)
    requires HeaderOk(header)
    ensures HeaderOk(HeaderLines(header)) && HeaderLines(header) != []
  {
    DefaultHeaderOk();
  }

  lemma OneLineEach(header: seq<string>, es: seq<Entry>)
    requires HeaderOk(header) && forall e :: e in es ==> OnOneLine(e)
    ensures forall line :: line in header + Lines(es) + [""] ==> '\n' !in line
  {
    hide Comment;
    assert forall i :: 0 <= i < |es| ==> es[i] in es;
  }

  /** The file written, line by line. */
  lemma WrittenLines(es: seq<Entry>, header: seq<string>)
    requires HeaderOk(header) && forall e :: e in es ==> OnOneLine(e)
    ensures HeaderOk(HeaderLines(header))
    ensures Split(Write(es, header), '\n') == HeaderLines(header) + Lines(es) + [""]
  {
    var lines := HeaderLines(header) + Lines(es) + [""];
    assert Write(es, header) == Join(HeaderLines(header), "\n") + "\n" + Body(es) + "";
    hide *;
    HeaderLinesOk(header);
    OneLineEach(HeaderLines(header), es);
    WriteIsLines(es, HeaderLines(header), "");
    SplitOfJoin(lines, '\n');
  }

  lemma BlankTaken(lines: seq<string>)
    ensures Taken(lines + [""]) == Taken(lines)
  {
    assert (lines + [""])[..|lines|] == lines;
  }

  /** Entries and header come back from a file that was written from them, provided each entry is
      representable. */
  lemma ReadOfWrite(es: seq<Entry>, header: seq<string>)
    requires HeaderOk(header) && forall e :: e in es ==> Representable(e)
    ensures Read(Write(es, header)) == Contents(es, HeaderLines(header))
  {
    forall e | e in es ensures OnOneLine(e) {
      RepresentableOnOneLine(e);
    }
    WrittenLines(es, header);
    hide Representable, OnOneLine, HeaderOk;
    BlankTaken(HeaderLines(header) + Lines(es));
    AccountsTaken(HeaderLines(header), es);
  }

  /** And only then. */
  lemma RoundTripIff(es: seq<Entry>, header: seq<string>)
    requires HeaderOk(header)
    ensures Read(Write(es, header)) == Contents(es, HeaderLines(header)) <==> forall e :: e in es ==> Representable(e)
  {
    if forall e :: e in es ==> Representable(e) {
      ReadOfWrite(es, header);
    }
    ReadRepresentable(Write(es, header));
  }

  /** Rewriting what was read changes nothing of what is read. */
  lemma RewritingIsStable(content: string)
    ensures var c := Read(content);
      Read(Write(c.entries, c.header)) == Contents(c.entries, HeaderLines(c.header))
  {
    ReadRepresentable(content);
    ReadOfWrite(Read(content).entries, Read(content).header);
  }

  /** A line that is no account is not kept by any rewriting, wherever it stands: nothing of it is
      read, unless it is a comment before the first account. */
  lemma {:induction false} OddLinesDropped(before: seq<string>, line: string, after: seq<string>)
    requires LineEntries(line) == [] && !(Comment(line) && Taken(before).entries == [])
    ensures Taken(before + [line] + after) == Taken(before + after)
    decreases |after|
  {
    if after == [] {
      TakenSnoc(before, line);
      DroppedLine(Taken(before), line);
      hide *;
      Regrouped(before, line, [], "");
      assert before + after == before;
    } else {
      hide *;
      var most, last := after[..|after| - 1], after[|after| - 1];
      assert after == most + [last];
      OddLinesDropped(before, line, most);
      Regrouped(before, line, most, last);
      TakenSnoc(before + [line] + most, last);
      TakenSnoc(before + most, last);
      assert before + (most + [last]) == before + most + [last];
    }
  }

  lemma DroppedLine(c: Contents, line: string)
    requires LineEntries(line) == [] && !(Comment(line) && c.entries == [])
    ensures Take(c, line) == c
  {
    hide Fields, Head;
  }

  // ------------------------------------------------------------- accounts

  /** matches, on both fields. */
  predicate Matches(e: Entry, host: string, user: string) {
    Lower(e.host) == Lower(host) && Lower(e.user) == Lower(user)
  }

  /** The same account: both names agree bar case. */
  predicate SameAccount(h: string, u: string, host: string, user: string) {
    SameBarCase(h, host) && SameBarCase(u, user)
  }

  lemma MatchesIff(e: Entry, host: string, user: string)
    ensures Matches(e, host, user) <==> SameAccount(e.host, e.user, host, user)
  {
    LowerIsFolding(e.host, host);
    LowerIsFolding(e.user, user);
  }

  /** A password looked up is that of the first line of the account, and none is found only when
      there is no line of it. */
  lemma {:induction false} LookupIsFirst(es: seq<Entry>, host: string, user: string)
    ensures (exists i :: 0 <= i < |es| && Lookup(es, host, user) == es[i].password
               && SameAccount(es[i].host, es[i].user, host, user)
               && forall j :: 0 <= j < i ==> !SameAccount(es[j].host, es[j].user, host, user))
      || (Lookup(es, host, user) == ""
            && forall j :: 0 <= j < |es| ==> !SameAccount(es[j].host, es[j].user, host, user))
  {
    if es != [] {
      MatchesIff(es[0], host, user);
      hide Matches, SameAccount;
      if !Matches(es[0], host, user) {
        var rest := es[1..];
        LookupIsFirst(rest, host, user);
        assert forall j :: 0 < j < |es| ==> es[j] == rest[j - 1];
        if i :| 0 <= i < |rest| && Lookup(rest, host, user) == rest[i].password
                && SameAccount(rest[i].host, rest[i].user, host, user)
                && forall j :: 0 <= j < i ==> !SameAccount(rest[j].host, rest[j].user, host, user) {
          assert es[i + 1] == rest[i];
        }
      }
    }
  }

  function Lookup(es: seq<Entry>, host: string, user: string): string {
    if es == [] then "" else if Matches(es[0], host, user) then es[0].password else Lookup(es[1..], host, user)
  }

  /** Where the account is first, or the number of entries. */
  function First(es: seq<Entry>, host: string, user: string): (i: nat)
    ensures i <= |es| && (i < |es| ==> Matches(es[i], host, user))
    ensures forall j :: 0 <= j < i ==> !Matches(es[j], host, user)
  {
    if es == [] || Matches(es[0], host, user) then 0 else 1 + First(es[1..], host, user)
  }

  predicate Known(es: seq<Entry>, host: string, user: string) {
    exists i :: 0 <= i < |es| && Matches(es[i], host, user)
  }

  /** The entry that saving leaves for the account. */
  function SavedEntry(es: seq<Entry>, host: string, user: string, password: string): (e: Entry)
    ensures Matches(e, host, user) && e.password == password
  {
    if es == [] then Entry(host, user, password)
    else if Matches(es[0], host, user) then es[0].(password := password)
    else SavedEntry(es[1..], host, user, password)
  }

  /** saveFile's entries. */
  function Saved(es: seq<Entry>, host: string, user: string, password: string): seq<Entry> {
    if es == [] then [Entry(host, user, password)]
    else if Matches(es[0], host, user) then [es[0].(password := password)] + es[1..]
    else [es[0]] + Saved(es[1..], host, user, password)
  }

  /** forgetFile's entries. */
  function Kept(es: seq<Entry>, host: string, user: string): (r: seq<Entry>)
    ensures |r| <= |es|
  {
    if es == [] then []
    else Kept(es[..|es| - 1], host, user) + if Matches(es[|es| - 1], host, user) then [] else [es[|es| - 1]]
  }

  lemma {:induction false} SavedLookup(es: seq<Entry>, host: string, user: string, password: string)
    ensures Lookup(Saved(es, host, user, password), host, user) == password
  {
    if es != [] && !Matches(es[0], host, user) {
      SavedLookup(es[1..], host, user, password);
      assert Saved(es, host, user, password)[1..] == Saved(es[1..], host, user, password);
    }
  }

  lemma {:induction false} SavedOthers(
    es: seq<Entry>, host: string, user: string, password: string, h: string, u: string)
    requires Lower(h) != Lower(host) || Lower(u) != Lower(user)
    ensures Lookup(Saved(es, host, user, password), h, u) == Lookup(es, h, u)
  {
    var s := Saved(es, host, user, password);
    if es != [] {
      if Matches(es[0], host, user) {
        assert s[1..] == es[1..];
      } else {
        SavedOthers(es[1..], host, user, password, h, u);
        assert s[1..] == Saved(es[1..], host, user, password);
      }
    }
  }

  /** Saving changes one line, or adds one at the end. */
  lemma {:induction false} SavedIs(es: seq<Entry>, host: string, user: string, password: string)
    ensures var i := First(es, host, user);
      var e := if i < |es| then es[i].(password := password) else Entry(host, user, password);
      && SavedEntry(es, host, user, password) == e
      && Saved(es, host, user, password) == if i < |es| then es[i := e] else es + [e]
  {
    hide Matches;
    if es != [] && !Matches(es[0], host, user) {
      var rest, i := es[1..], First(es[1..], host, user);
      SavedIs(rest, host, user, password);
      assert es == [es[0]] + rest;
      if i < |rest| {
        assert es[i + 1] == rest[i];
        assert [es[0]] + rest[i := rest[i].(password := password)] == es[i + 1 := rest[i].(password := password)];
      }
    }
  }

  lemma {:induction false} KeptIs(es: seq<Entry>, host: string, user: string)
    ensures forall e :: e in Kept(es, host, user) <==> e in es && !Matches(e, host, user)
    ensures |Kept(es, host, user)| == |es| <==> !Known(es, host, user)
    ensures !Known(es, host, user) ==> Kept(es, host, user) == es
  {
    if es != [] {
      var m := |es| - 1;
      KeptIs(es[..m], host, user);
      assert es == es[..m] + [es[m]];
    }
  }

  /** Only entries of es are kept, in their order, and just those of other accounts. */
  ghost predicate InOrder(es: seq<Entry>, kept: seq<Entry>, places: seq<nat>, host: string, user: string) {
    && |places| == |kept|
    && (forall i, j :: 0 <= i < j < |places| ==> places[i] < places[j])
    && (forall i :: 0 <= i < |places| ==> places[i] < |es| && kept[i] == es[places[i]])
    && (forall p: nat :: p in places <==> p < |es| && !SameAccount(es[p].host, es[p].user, host, user))
  }

  lemma InOrderSnoc(es: seq<Entry>, kept: seq<Entry>, places: seq<nat>, e: Entry, host: string, user: string)
    requires InOrder(es, kept, places, host, user)
    ensures SameAccount(e.host, e.user, host, user) ==> InOrder(es + [e], kept, places, host, user)
    ensures !SameAccount(e.host, e.user, host, user) ==> InOrder(es + [e], kept + [e], places + [|es|], host, user)
  {
    hide SameAccount;
    var all := es + [e];
    forall i | 0 <= i < |places| ensures places[i] < |es| && all[places[i]] == es[places[i]] {
    }
    assert forall p: nat :: p in places + [|es|] <==> p in places || p == |es|;
  }

  /** Forgetting keeps the order: what is left are the entries of other accounts, each as often as it
      was there, one behind another as before. */
  lemma {:induction false} KeptInOrder(es: seq<Entry>, host: string, user: string) returns (places: seq<nat>)
    ensures InOrder(es, Kept(es, host, user), places, host, user)
  {
    places := [];
    if es != [] {
      var m := |es| - 1;
      assert es == es[..m] + [es[m]];
      MatchesIff(es[m], host, user);
      hide Matches, SameAccount, InOrder;
      places := KeptInOrder(es[..m], host, user);
      InOrderSnoc(es[..m], Kept(es[..m], host, user), places, es[m], host, user);
      if Matches(es[m], host, user) {
        assert Kept(es[..m], host, user) + [] == Kept(es[..m], host, user);
      } else {
        places := places + [m];
      }
    }
  }

  lemma {:induction false} LookupSnoc(es: seq<Entry>, e: Entry, h: string, u: string)
    ensures Lookup(es + [e], h, u) ==
      if Known(es, h, u) then Lookup(es, h, u) else if Matches(e, h, u) then e.password else ""
  {
    if es != [] {
      assert (es + [e])[1..] == es[1..] + [e];
      assert forall i :: 0 < i < |es| ==> es[1..][i - 1] == es[i];
      if !Matches(es[0], h, u) {
        LookupSnoc(es[1..], e, h, u);
      }
    }
  }

  lemma {:induction false} LookupUnknown(es: seq<Entry>, h: string, u: string)
    requires !Known(es, h, u)
    ensures Lookup(es, h, u) == ""
  {
    if es != [] {
      assert forall i :: 0 <= i < |es| - 1 ==> es[1..][i] == es[i + 1];
      LookupUnknown(es[1..], h, u);
    }
  }

  // ------------------------------------------------------------- the file

  /** What saveFile accepts. */
  predicate Sayable(s: string): (r: bool)
    ensures r <==> forall i :: 0 <= i < |s| ==> s[i] != '\t' && s[i] != '\n'
  {
    '\t' !in s && '\n' !in s
  }

  /** The content saveFile leaves. */
  function SaveContent(content: string, host: string, user: string, password: string): string {
    var c := Read(content);
    Write(Saved(c.entries, host, user, password), c.header)
  }

  function ForgetContent(content: string, host: string, user: string): string {
    var c := Read(content);
    var kept := Kept(c.entries, host, user);
    if |kept| == |c.entries| then content else Write(kept, c.header)
  }

  lemma SavedRepresentable(es: seq<Entry>, host: string, user: string, password: string)
    requires forall e :: e in es ==> Representable(e)
    requires Representable(SavedEntry(es, host, user, password))
    ensures forall e :: e in Saved(es, host, user, password) ==> Representable(e)
  {
    SavedIs(es, host, user, password);
    hide Representable;
  }

  /** After a save that the file can represent: the account has the new password, every other
      account is as it was, and so is the header. */
  lemma SaveThenRead(content: string, host: string, user: string, password: string)
    requires Representable(SavedEntry(Read(content).entries, host, user, password))
    ensures var (was, now) := (Read(content), Read(SaveContent(content, host, user, password)));
      && now == Contents(Saved(was.entries, host, user, password), HeaderLines(was.header))
      && Lookup(now.entries, host, user) == password
      && (forall h, u :: !SameAccount(h, u, host, user) ==>
            Lookup(now.entries, h, u) == Lookup(was.entries, h, u))
  {
    var was := Read(content);
    ReadRepresentable(content);
    SavedRepresentable(was.entries, host, user, password);
    ReadOfWrite(Saved(was.entries, host, user, password), was.header);
    SavedLookup(was.entries, host, user, password);
    hide Representable, Read, Saved;
    forall h, u | !SameAccount(h, u, host, user)
      ensures Lookup(Saved(was.entries, host, user, password), h, u) == Lookup(was.entries, h, u)
    {
      LowerIsFolding(h, host);
      LowerIsFolding(u, user);
      SavedOthers(was.entries, host, user, password, h, u);
    }
  }

  /** For an account already in the file the save is always representable, unless both its names
      are empty. */
  lemma KnownIsRepresentable(content: string, host: string, user: string, password: string)
    requires Known(Read(content).entries, host, user) && Sayable(password) && (host != "" || user != "")
    ensures Representable(SavedEntry(Read(content).entries, host, user, password))
  {
    var es := Read(content).entries;
    ReadRepresentable(content);
    SavedIs(es, host, user, password);
    var i := First(es, host, user);
    var e := SavedEntry(es, host, user, password);
    assert Representable(es[i]) && |e.host| == |Lower(host)| && |e.user| == |Lower(user)|;
    SameHead(es[i], e);
  }

  lemma SameHead(e: Entry, f: Entry)
    requires Trimmed(e.host) && Trimmed(e.user) && (e.host != "" || e.user != "")
    requires f.host == e.host && f.user == e.user
    ensures Skipped(Line(e)) <==> Skipped(Line(f))
  {
    HeadOfLine(e);
    HeadOfLine(f);
  }

  /** A new account's password is found again exactly when its line is representable: not when a
      name has white space around it, or the line starts like a comment. */
  lemma NewAccountIff(content: string, host: string, user: string, password: string)
    requires Sayable(host) && Sayable(user) && Sayable(password) && password != ""
    requires !Known(Read(content).entries, host, user)
    ensures Lookup(Read(SaveContent(content, host, user, password)).entries, host, user) == password
      <==> Representable(Entry(host, user, password))
  {
    var was, e := Read(content), Entry(host, user, password);
    SavedIs(was.entries, host, user, password);
    if Representable(e) {
      SaveThenRead(content, host, user, password);
    } else {
      UnrepresentableIsLost(content, e);
    }
  }

  lemma UnrepresentableIsLost(content: string, e: Entry)
    requires Sayable(e.host) && Sayable(e.user) && Sayable(e.password)
    requires !Representable(e) && !Known(Read(content).entries, e.host, e.user)
    ensures var c := Read(content); Lookup(Read(Write(c.entries + [e], c.header)).entries, e.host, e.user) == ""
  {
    var was := Read(content);
    ReadRepresentable(content);
    RepresentableOnOneLine(e);
    AppendedIsRead(was.entries, e, was.header);
    LookupUnknown(was.entries, e.host, e.user);
    if !Skipped(Line(e)) {
      Untidy(e.host);
      Untidy(e.user);
      assert !Matches(Tidy(e), e.host, e.user);
      hide *;
      LookupSnoc(was.entries, Tidy(e), e.host, e.user);
    } else {
      hide *;
      assert was.entries + [] == was.entries;
    }
  }

  lemma Untidy(s: string)
    ensures !Trimmed(s) ==> Lower(Trim(s)) != Lower(s)
  {
  }

  /** What is read after an account is appended that may not be representable. */
  lemma AppendedIsRead(es: seq<Entry>, e: Entry, header: seq<string>)
    requires HeaderOk(header) && forall x :: x in es ==> Representable(x)
    requires '\t' !in e.host && '\t' !in e.user && OnOneLine(e)
    ensures Read(Write(es + [e], header)).entries == es + if Skipped(Line(e)) then [] else [Tidy(e)]
  {
    forall x | x in es + [e] ensures OnOneLine(x) {
      if x in es { RepresentableOnOneLine(x); }
    }
    WrittenLines(es + [e], header);
    hide Representable, OnOneLine, HeaderOk;
    AppendedIsTaken(es, e, HeaderLines(header));
  }

  lemma AppendedIsTaken(es: seq<Entry>, e: Entry, header: seq<string>)
    requires HeaderOk(header) && forall x :: x in es ==> Representable(x)
    requires '\t' !in e.host && '\t' !in e.user
    ensures Taken(header + Lines(es + [e]) + [""]).entries == es + if Skipped(Line(e)) then [] else [Tidy(e)]
  {
    LineIsRead(e);
    hide Representable, HeaderOk, Skipped, LineEntries, Line, Lines;
    AccountsTaken(header, es);
    LinesSnoc(header, es, e);
    BlankTaken(header + Lines(es) + [Line(e)]);
    TakenSnoc(header + Lines(es), Line(e));
  }

  // ------------------------------------------------------------- which lines are left alone

  /** The line is an account's. */
  predicate Account(line: string) {
    LineEntries(line) != []
  }

  function EntryOf(line: string): Entry {
    if Account(line) then LineEntries(line)[0] else Entry("", "", "")
  }

  /** An account's line as it is written. */
  predicate Canonical(line: string) {
    Account(line) && line == Line(EntryOf(line))
  }

  function EntriesOf(lines: seq<string>): (es: seq<Entry>)
    ensures |es| == |lines| && forall i :: 0 <= i < |es| ==> es[i] == EntryOf(lines[i])
  {
    seq(|lines|, i requires 0 <= i < |lines| => EntryOf(lines[i]))
  }

  /** k comments, then accounts, then the last newline. */
  ghost predicate Layout(lines: seq<string>, k: nat) {
    && 0 < k < |lines| && lines[|lines| - 1] == ""
    && (forall j :: 0 <= j < k ==> Comment(lines[j]))
    && (forall j :: k <= j < |lines| - 1 ==> Account(lines[j]))
  }

  /** And each account as it is written, but for line own. */
  ghost predicate Shape(lines: seq<string>, own: nat, k: nat) {
    && Layout(lines, k)
    && (forall j :: k <= j < |lines| - 1 && j != own ==> Canonical(lines[j]))
  }

  ghost predicate TidyBut(lines: seq<string>, own: nat) {
    exists k :: Shape(lines, own, k)
  }

  lemma EntriesOfSnoc(header: seq<string>, lines: seq<string>, line: string)
    ensures EntriesOf(lines + [line]) == EntriesOf(lines) + [EntryOf(line)]
    ensures header + (lines + [line]) == header + lines + [line]
  {
    hide EntryOf;
  }

  lemma TakeAccountLine(c: Contents, line: string)
    requires Account(line)
    ensures Take(c, line) == c.(entries := c.entries + [EntryOf(line)])
  {
    hide Fields, Head;
  }

  /** Comments and then accounts are read as they stand. */
  lemma {:induction false} AccountLinesTaken(header: seq<string>, lines: seq<string>)
    requires HeaderOk(header) && forall line :: line in lines ==> Account(line)
    ensures Taken(header + lines) == Contents(EntriesOf(lines), header)
    decreases |lines|
  {
    if lines == [] {
      HeaderTaken(header);
      assert header + lines == header;
    } else {
      var most, line := lines[..|lines| - 1], lines[|lines| - 1];
      assert lines == most + [line];
      hide *;
      AccountLinesTaken(header, most);
      TakeAccountLine(Contents(EntriesOf(most), header), line);
      TakenSnoc(header + most, line);
      EntriesOfSnoc(header, most, line);
    }
  }

  lemma LinesOfEntries(lines: seq<string>)
    requires forall line :: line in lines ==> Canonical(line)
    ensures Lines(EntriesOf(lines)) == lines
  {
    hide EntryOf, Line, Account;
    forall j | 0 <= j < |lines| ensures Lines(EntriesOf(lines))[j] == lines[j] {
      assert lines[j] in lines;
    }
  }

  lemma LineIsCanonical(e: Entry)
    requires Representable(e)
    ensures Canonical(Line(e)) && EntryOf(Line(e)) == e
  {
    LineIsRead(e);
  }

  /** Rewriting a file leaves it as it is, to the letter, if and only if it is a run of comments,
      accounts as they are written, and the last newline. */
  lemma RewritingKeepsIff(content: string)
    ensures var (c, lines) := (Read(content), Split(content, '\n'));
      Write(c.entries, c.header) == content <==> TidyBut(lines, |lines|)
  {
    var c, lines := Read(content), Split(content, '\n');
    ReadRepresentable(content);
    WrittenBack(c.entries, c.header);
    hide Read, Write, Representable, HeaderOk, Shape;
    if Write(c.entries, c.header) == content {
      WrittenIsTidy(c.entries, c.header);
      assert HeaderLines(c.header) + Lines(c.entries) + [""] == lines;
    }
    if k: nat :| Shape(lines, |lines|, k) {
      LayoutIsRead(lines, k);
      LinesOfEntries(lines[k..|lines| - 1]) by { TidyAccounts(lines, k); }
      assert lines[..k] + lines[k..|lines| - 1] + [""] == lines by { LayoutParts(lines, k); }
      JoinOfSplit(content, '\n');
      JoinOfSplit(Write(c.entries, c.header), '\n');
    }
  }

  lemma WrittenBack(es: seq<Entry>, header: seq<string>)
    requires HeaderOk(header) && forall e :: e in es ==> Representable(e)
    ensures Split(Write(es, header), '\n') == HeaderLines(header) + Lines(es) + [""]
  {
    forall e | e in es ensures OnOneLine(e) {
      RepresentableOnOneLine(e);
    }
    WrittenLines(es, header);
  }

  lemma WrittenIsTidy(es: seq<Entry>, header: seq<string>)
    requires HeaderOk(header) && forall e :: e in es ==> Representable(e)
    ensures var lines := HeaderLines(header) + Lines(es) + [""];
      TidyBut(lines, |lines|)
  {
    var h := HeaderLines(header);
    var lines := h + Lines(es) + [""];
    HeaderLinesOk(header);
    assert forall j :: 0 <= j < |h| ==> Comment(h[j]);
    hide *;
    forall j | |h| <= j < |lines| - 1 ensures Canonical(lines[j]) {
      assert lines[j] == Line(es[j - |h|]) && es[j - |h|] in es;
      LineIsCanonical(es[j - |h|]);
    }
    CanonicalAccounts(lines);
    IsLayout(lines, |h|);
    IsShape(lines, |lines|, |h|);
  }

  lemma IsLayout(lines: seq<string>, k: nat)
    requires 0 < k < |lines| && lines[|lines| - 1] == ""
    requires forall j :: 0 <= j < k ==> Comment(lines[j])
    requires forall j :: k <= j < |lines| - 1 ==> Account(lines[j])
    ensures Layout(lines, k)
  {
    hide Account, Comment;
  }

  lemma CanonicalAccounts(lines: seq<string>)
    ensures forall j :: 0 <= j < |lines| && Canonical(lines[j]) ==> Account(lines[j])
  {
  }

  lemma TidyAccounts(lines: seq<string>, k: nat)
    requires Shape(lines, |lines|, k)
    ensures forall line :: line in lines[k..|lines| - 1] ==> Canonical(line)
  {
    hide Canonical, Account;
  }

  lemma LayoutParts(lines: seq<string>, k: nat)
    requires Layout(lines, k)
    ensures lines[..k] + lines[k..|lines| - 1] + [""] == lines
    ensures forall line :: line in lines[k..|lines| - 1] ==> Account(line)
  {
    hide Canonical, Account;
  }

  /** What is read of such a file. */
  lemma LayoutIsRead(lines: seq<string>, k: nat)
    requires Layout(lines, k) && forall line :: line in lines ==> '\n' !in line
    ensures Taken(lines) == Contents(EntriesOf(lines[k..|lines| - 1]), lines[..k]) && HeaderOk(lines[..k])
  {
    assert forall j :: 0 <= j < k ==> lines[j] in lines;
    assert HeaderOk(lines[..k]);
    LayoutParts(lines, k);
    hide Layout, Account, HeaderOk, EntryOf;
    AccountLinesTaken(lines[..k], lines[k..|lines| - 1]);
    BlankTaken(lines[..k] + lines[k..|lines| - 1]);
  }

  predicate Owned(line: string, host: string, user: string) {
    Account(line) && Matches(EntryOf(line), host, user)
  }

  /** Where the first true is, or the length. */
  function FirstTrue(bs: seq<bool>): (i: nat)
    ensures i <= |bs| && (i < |bs| ==> bs[i]) && forall j :: 0 <= j < i ==> !bs[j]
  {
    if bs == [] || bs[0] then 0 else 1 + FirstTrue(bs[1..])
  }

  function Owning(lines: seq<string>, host: string, user: string): (bs: seq<bool>)
    ensures |bs| == |lines| && forall i :: 0 <= i < |lines| ==> bs[i] == Owned(lines[i], host, user)
  {
    seq(|lines|, i requires 0 <= i < |lines| => Owned(lines[i], host, user))
  }

  /** Where the account's own line is, or the number of lines. */
  function OwnLine(lines: seq<string>, host: string, user: string): (i: nat)
    ensures i <= |lines|
  {
    FirstTrue(Owning(lines, host, user))
  }

  lemma OwnLineIs(lines: seq<string>, host: string, user: string)
    ensures var i := OwnLine(lines, host, user);
      && (i < |lines| ==> Owned(lines[i], host, user))
      && forall j :: 0 <= j < i ==> !Owned(lines[j], host, user)
  {
    hide Owned;
  }

  ghost predicate HasOwned(lines: seq<string>, host: string, user: string) {
    exists j :: 0 <= j < |lines| && Owned(lines[j], host, user)
  }

  lemma HasOwnedSnoc(lines: seq<string>, line: string, host: string, user: string)
    ensures HasOwned(lines + [line], host, user) <==> HasOwned(lines, host, user) || Owned(line, host, user)
  {
    hide Owned;
    assert (lines + [line])[|lines|] == line;
    if HasOwned(lines, host, user) {
      var j :| 0 <= j < |lines| && Owned(lines[j], host, user);
      assert (lines + [line])[j] == lines[j];
    }
  }

  lemma {:induction false} OwnedIsKnown(lines: seq<string>, host: string, user: string)
    ensures Known(Taken(lines).entries, host, user) <==> HasOwned(lines, host, user)
    ensures HasOwned(lines, host, user) <==> OwnLine(lines, host, user) < |lines|
  {
    if lines != [] {
      var most, line := lines[..|lines| - 1], lines[|lines| - 1];
      assert lines == most + [line];
      hide *;
      OwnedIsKnown(most, host, user);
      TakenSnoc(most, line);
      TakeKnown(Taken(most), line, host, user);
      HasOwnedSnoc(most, line, host, user);
    }
    OwnLineExists(lines, host, user);
  }

  lemma OwnLineExists(lines: seq<string>, host: string, user: string)
    ensures HasOwned(lines, host, user) <==> OwnLine(lines, host, user) < |lines|
  {
    hide Owned, OwnLine;
    OwnLineIs(lines, host, user);
  }

  lemma TakeKnown(c: Contents, line: string, host: string, user: string)
    ensures Known(Take(c, line).entries, host, user) <==> Known(c.entries, host, user) || Owned(line, host, user)
  {
    hide Matches, Fields, Head;
    var t := Take(c, line);
    if Known(c.entries, host, user) {
      var i :| 0 <= i < |c.entries| && Matches(c.entries[i], host, user);
      assert t.entries[i] == c.entries[i];
    }
    if Account(line) {
      assert t.entries == c.entries + [EntryOf(line)] by { TakeAccountLine(c, line); }
      assert t.entries[|c.entries|] == EntryOf(line);
    } else {
      assert t.entries == c.entries;
    }
  }

  /** The lines with one put in the place of the account's own, or before the last. */
  function WithLine(lines: seq<string>, own: nat, line: string): seq<string>
    requires lines != []
  {
    if own < |lines| then lines[own := line] else lines[..|lines| - 1] + [line] + lines[|lines| - 1..]
  }

  lemma SavedOnOneLine(es: seq<Entry>, host: string, user: string, password: string)
    requires Sayable(host) && Sayable(user) && Sayable(password) && forall e :: e in es ==> Representable(e)
    ensures forall e :: e in Saved(es, host, user, password) ==> OnOneLine(e)
  {
    SavedIs(es, host, user, password);
    hide Saved, SavedEntry, Skipped, Trimmed;
    forall e | e in Saved(es, host, user, password) ensures OnOneLine(e) {
      assert e in es || e.password == password;
      RepresentableOnOneLine(e);
    }
  }

  /** The lines after a save. */
  lemma SavedLines(content: string, host: string, user: string, password: string)
    requires Sayable(host) && Sayable(user) && Sayable(password)
    ensures var c := Read(content);
      Split(SaveContent(content, host, user, password), '\n')
        == HeaderLines(c.header) + Lines(Saved(c.entries, host, user, password)) + [""]
  {
    var c := Read(content);
    SaveIsWrite(content, host, user, password);
    hide *;
    ReadRepresentable(content);
    SavedOnOneLine(c.entries, host, user, password);
    WrittenLines(Saved(c.entries, host, user, password), c.header);
  }

  lemma SaveIsWrite(content: string, host: string, user: string, password: string)
    ensures var c := Read(content);
      SaveContent(content, host, user, password) == Write(Saved(c.entries, host, user, password), c.header)
  {
    hide Read, Write, Saved;
  }

  /** In a file of that shape the account's own line is that of its first entry. */
  lemma OwnLineIsFirst(lines: seq<string>, k: nat, host: string, user: string)
    requires Layout(lines, k)
    ensures var f := First(EntriesOf(lines[k..|lines| - 1]), host, user);
      OwnLine(lines, host, user) == if f < |lines| - 1 - k then k + f else |lines|
  {
    LayoutBounds(lines, k);
    hide *;
    var es := EntriesOf(lines[k..|lines| - 1]);
    forall j | 0 <= j < |lines|
      ensures Owned(lines[j], host, user) <==> k <= j < |lines| - 1 && Matches(es[j - k], host, user)
    {
      OwnedAt(lines, k, j, host, user);
    }
    OwnLineIs(lines, host, user);
    var f := First(es, host, user);
    if f < |es| { assert Owned(lines[k + f], host, user); }
  }

  lemma LayoutBounds(lines: seq<string>, k: nat)
    requires Layout(lines, k)
    ensures 0 < k < |lines|
  {
  }

  lemma OwnedAt(lines: seq<string>, k: nat, j: nat, host: string, user: string)
    requires Layout(lines, k) && j < |lines|
    ensures Owned(lines[j], host, user)
       <==> k <= j < |lines| - 1 && Matches(EntriesOf(lines[k..|lines| - 1])[j - k], host, user)
  {
    hide Canonical, Matches, Comment, EntryOf;
    if j < k || j == |lines| - 1 { NoAccount(lines[j]); }
  }

  lemma NoAccount(line: string)
    requires Comment(line) || line == ""
    ensures !Account(line)
  {
  }

  /** Of a file of that shape a save changes the account's own line and no other. */
  lemma ShapedSave(content: string, host: string, user: string, password: string, k: nat)
    requires Sayable(host) && Sayable(user) && Sayable(password)
    requires var lines := Split(content, '\n'); Shape(lines, OwnLine(lines, host, user), k)
    ensures var lines := Split(content, '\n');
      Split(SaveContent(content, host, user, password), '\n')
        == WithLine(lines, OwnLine(lines, host, user), Line(SavedEntry(Read(content).entries, host, user, password)))
  {
    hide *;
    var lines := Split(content, '\n');
    ShapeHasLayout(lines, OwnLine(lines, host, user), k);
    SavedLines(content, host, user, password);
    LayoutIsRead(lines, k);
    ReadIs(content);
    OwnLineIsFirst(lines, k, host, user);
    LayoutParts(lines, k);
    CanonicalLines(lines, OwnLine(lines, host, user), k);
    ShapedLines(lines, host, user, password, k);
  }

  lemma ShapeHasLayout(lines: seq<string>, own: nat, k: nat)
    requires Shape(lines, own, k)
    ensures Layout(lines, k) && 0 < k < |lines|
  {
    hide Canonical, Account, Comment;
  }

  lemma ShapedLines(lines: seq<string>, host: string, user: string, password: string, k: nat)
    requires 0 < k < |lines| && lines[..k] + lines[k..|lines| - 1] + [""] == lines
    requires var (ls, own) := (lines[k..|lines| - 1], OwnLine(lines, host, user));
      var f := First(EntriesOf(ls), host, user);
      && own == (if f < |ls| then k + f else |lines|)
      && forall j :: 0 <= j < |ls| && k + j != own ==> ls[j] == Line(EntriesOf(ls)[j])
    ensures var es := EntriesOf(lines[k..|lines| - 1]);
      lines[..k] + Lines(Saved(es, host, user, password)) + [""]
        == WithLine(lines, OwnLine(lines, host, user), Line(SavedEntry(es, host, user, password)))
  {
    hide *;
    var ls := lines[k..|lines| - 1];
    var es := EntriesOf(ls);
    SavedIsFirst(es, host, user, password);
    ReplacedLine(lines[..k], es, ls, First(es, host, user), SavedEntry(es, host, user, password));
  }

  lemma SavedIsFirst(es: seq<Entry>, host: string, user: string, password: string)
    ensures var (f, e) := (First(es, host, user), SavedEntry(es, host, user, password));
      f <= |es| && Saved(es, host, user, password) == if f < |es| then es[f := e] else es + [e]
  {
    SavedIs(es, host, user, password);
  }

  lemma CanonicalLines(lines: seq<string>, own: nat, k: nat)
    requires Shape(lines, own, k)
    ensures HeaderLines(lines[..k]) == lines[..k]
    ensures var ls := lines[k..|lines| - 1];
      forall j :: 0 <= j < |ls| && k + j != own ==> ls[j] == Line(EntriesOf(ls)[j])
  {
    hide Account, Comment, Line;
  }

  lemma ReplacedLine(header: seq<string>, es: seq<Entry>, ls: seq<string>, f: nat, e: Entry)
    requires |es| == |ls| && f <= |es|
    requires forall j :: 0 <= j < |ls| && j != f ==> ls[j] == Line(es[j])
    ensures var (lines, own) := (header + ls + [""], if f < |es| then |header| + f else |header| + |es| + 1);
      WithLine(lines, own, Line(e)) == header + Lines(if f < |es| then es[f := e] else es + [e]) + [""]
  {
    hide Line;
    var lines := header + ls + [""];
    if f < |es| {
      assert Lines(es[f := e]) == ls[f := Line(e)];
    } else {
      assert Lines(es + [e]) == ls + [Line(e)];
    }
  }

  /** A new account: the lines before it are header and accounts, as they were written. */
  lemma NewShape(lines: seq<string>, header: seq<string>, es: seq<Entry>, e: Entry)
    requires lines != [] && header != [] && HeaderOk(header) && forall x :: x in es ==> Representable(x)
    requires WithLine(lines, |lines|, Line(e)) == header + Lines(es + [e]) + [""]
    ensures TidyBut(lines, |lines|)
  {
    var n := |lines| - 1;
    var after := WithLine(lines, |lines|, Line(e));
    assert |Lines(es + [e])| == |es| + 1 && |after| == n + 2 && n == |header| + |es|;
    assert lines[..n] == after[..n] && lines[n] == after[n + 1] == "";
    assert forall j :: |header| <= j < n ==> after[j] == Line(es[j - |header|]);
    hide Canonical, Account, Line, Representable, WithLine, Comment;
    forall j | |header| <= j < n ensures Canonical(lines[j]) && Account(lines[j]) {
      assert lines[j] == lines[..n][j];
      LineIsCanonical(es[j - |header|]);
      CanonicalAccounts([lines[j]]);
      assert [lines[j]][0] == lines[j];
    }
    assert forall j :: 0 <= j < |header| ==> lines[j] == lines[..n][j] == header[j];
    assert Shape(lines, |lines|, |header|);
  }

  lemma TakeCount(c: Contents, line: string)
    ensures |Take(c, line).entries| == |c.entries| + if Account(line) then 1 else 0
  {
  }

  /** After comments there are as many entries as lines only if every line is an account's. */
  lemma {:induction false} TakenCount(header: seq<string>, lines: seq<string>)
    requires HeaderOk(header)
    ensures |Taken(header + lines).entries| <= |lines|
    ensures |Taken(header + lines).entries| == |lines| ==> forall line :: line in lines ==> Account(line)
    decreases |lines|
  {
    if lines == [] {
      HeaderTaken(header);
      assert header + lines == header;
    } else {
      var most, line := lines[..|lines| - 1], lines[|lines| - 1];
      assert lines == most + [line] && header + lines == header + most + [line];
      hide *;
      TakenCount(header, most);
      TakenSnoc(header + most, line);
      TakeCount(Taken(header + most), line);
    }
  }

  lemma PartsAt(header: seq<string>, after: seq<string>, j: nat)
    requires j <= |header| + |after|
    ensures (header + after + [""])[j]
      == if j < |header| then header[j] else if j < |header| + |after| then after[j - |header|] else ""
  {
  }

  /** An account that was there: the lines around its own are where they were. */
  lemma KnownPlaces(lines: seq<string>, header: seq<string>, own: nat, after: seq<string>, line: string)
    requires own < |lines| && |header| <= own && line != ""
    requires lines[own := line] == header + after + [""]
    ensures |lines| == |header| + |after| + 1 && own < |lines| - 1 && lines[|lines| - 1] == ""
    ensures forall j :: 0 <= j < |header| ==> lines[j] == header[j]
    ensures forall j :: |header| <= j < |lines| - 1 && j != own ==> lines[j] == after[j - |header|]
  {
    var all := header + after + [""];
    assert |all| == |lines|;
    PartsAt(header, after, own);
    assert all[own] == line;
    forall j | 0 <= j < |lines| && j != own
      ensures lines[j] == if j < |header| then header[j] else if j < |lines| - 1 then after[j - |header|] else ""
    {
      PartsAt(header, after, j);
      assert lines[j] == all[j];
    }
  }

  lemma KnownLayout(lines: seq<string>, header: seq<string>)
    requires header != [] && HeaderOk(header) && |header| < |lines| && lines[|lines| - 1] == ""
    requires forall j :: 0 <= j < |header| ==> lines[j] == header[j]
    requires |lines| == |header| + |Taken(lines).entries| + 1
    ensures Layout(lines, |header|)
  {
    var n := |lines| - 1;
    var ls := lines[|header|..n];
    SplitThree(lines, header);
    forall j | 0 <= j < |header| ensures Comment(lines[j]) {
      HeaderComment(header, j);
    }
    hide *;
    TakenCount(header, ls);
    BlankTaken(header + ls);
    forall j | |header| <= j < n ensures Account(lines[j]) {
      assert ls[j - |header|] == lines[j] && ls[j - |header|] in ls;
    }
    IsLayout(lines, |header|);
  }

  lemma SplitThree(lines: seq<string>, header: seq<string>)
    requires |header| < |lines| && lines[|lines| - 1] == "" && forall j :: 0 <= j < |header| ==> lines[j] == header[j]
    ensures header + lines[|header|..|lines| - 1] + [""] == lines
  {
  }

  lemma LineNotEmpty(e: Entry)
    ensures Line(e) != ""
  {
  }

  lemma KnownShape(lines: seq<string>, header: seq<string>, host: string, user: string, e: Entry)
    requires lines != [] && header != [] && HeaderOk(header) && forall line :: line in lines ==> '\n' !in line
    requires var own := OwnLine(lines, host, user); |header| <= own < |lines|
    requires var es := Taken(lines).entries;
      var f := First(es, host, user);
      f < |es| && lines[OwnLine(lines, host, user) := Line(e)] == header + Lines(es[f := e]) + [""]
    ensures TidyBut(lines, OwnLine(lines, host, user))
  {
    hide *;
    var es, own, k := Taken(lines).entries, OwnLine(lines, host, user), |header|;
    var f := First(es, host, user);
    LineNotEmpty(e);
    KnownPlaces(lines, header, own, Lines(es[f := e]), Line(e));
    KnownLayout(lines, header);
    LayoutIsRead(lines, k);
    OwnLineIsFirst(lines, k, host, user);
    forall j | k <= j < |lines| - 1 && j != own ensures Canonical(lines[j]) {
      assert lines[j] == Line(es[f := e][j - k]) && es[j - k] == EntryOf(lines[k..|lines| - 1][j - k]);
      LayoutAccount(lines, k, j);
      IsCanonical(lines[j]);
    }
    IsShape(lines, own, k);
  }

  lemma LayoutAccount(lines: seq<string>, k: nat, j: nat)
    requires Layout(lines, k) && k <= j < |lines| - 1
    ensures Account(lines[j])
  {
    hide Account, Comment;
  }

  lemma IsShape(lines: seq<string>, own: nat, k: nat)
    requires Layout(lines, k) && forall j :: k <= j < |lines| - 1 && j != own ==> Canonical(lines[j])
    ensures TidyBut(lines, own)
  {
    hide Layout, Canonical;
    assert Shape(lines, own, k);
  }

  lemma IsCanonical(line: string)
    requires Account(line) && line == Line(EntryOf(line))
    ensures Canonical(line)
  {
  }

  lemma TakeAfter(c: Contents, line: string)
    requires c.entries != []
    ensures Take(c, line).header == c.header && Take(c, line).entries != []
  {
    hide Head, Fields;
  }

  lemma Regrouped(a: seq<string>, line: string, most: seq<string>, last: string)
    ensures a + [line] + (most + [last]) == a + [line] + most + [last]
    ensures a + [line] + [] == a + [line]
  {
  }

  /** When the comments end at the first account's line. */
  lemma {:induction false} HeaderStops(header: seq<string>, line: string, after: seq<string>)
    requires HeaderOk(header) && Account(line)
    ensures Taken(header + [line] + after).header == header && Taken(header + [line] + after).entries != []
    decreases |after|
  {
    hide *;
    if after == [] {
      Regrouped(header, line, [], "");
      HeaderTaken(header);
      TakenSnoc(header, line);
      TakeAccountLine(Contents([], header), line);
    } else {
      var most, last := after[..|after| - 1], after[|after| - 1];
      assert after == most + [last];
      Regrouped(header, line, most, last);
      HeaderStops(header, line, most);
      TakenSnoc(header + [line] + most, last);
      TakeAfter(Taken(header + [line] + most), last);
    }
  }

  lemma ChangedAtFront(lines: seq<string>, own: nat, line: string, header: seq<string>, rest: seq<string>)
    requires own < |lines| && own < |header| && lines[own := line] == header + rest
    ensures header[own] == line && lines[..own] == header[..own]
    ensures lines[..own] + [lines[own]] + lines[own + 1..] == lines
  {
    assert lines[own := line][own] == header[own];
    forall j | 0 <= j < own ensures lines[j] == header[j] {
      assert lines[own := line][j] == (header + rest)[j];
    }
  }

  /** A line that is written as a comment has no host, and does not start the default header. */
  lemma CommentedEntry(e: Entry)
    requires Representable(e) || e.host == ""
    ensures Comment(Line(e)) ==> e.host == "" && !("#" <= Line(e))
  {
  }

  lemma HeaderComment(header: seq<string>, own: nat)
    requires HeaderOk(header) && own < |header|
    ensures Comment(header[own]) && HeaderOk(header[..own])
  {
    hide Comment;
  }

  lemma HeaderLinesAre(header: seq<string>)
    ensures header != [] ==> HeaderLines(header) == header
    ensures header == [] ==> |HeaderLines(header)| > 0 && "#" <= HeaderLines(header)[0]
  {
  }

  /** The entry a save leaves is representable, or has no host. */
  lemma SavedWithHost(content: string, host: string, user: string, password: string)
    requires Known(Read(content).entries, host, user) && Sayable(password)
    ensures var e := SavedEntry(Read(content).entries, host, user, password);
      Representable(e) || e.host == ""
  {
    hide Representable, Read;
    if host != "" {
      KnownIsRepresentable(content, host, user, password);
    } else {
      var e := SavedEntry(Read(content).entries, host, user, password);
      assert |e.host| == |Lower(host)|;
    }
  }

  /** The account's own line is not where the header is written: a line of the header there would
      have to be the start of the default header. */
  lemma OwnIsNoComment(content: string, host: string, user: string, password: string)
    requires Sayable(host) && Sayable(user) && Sayable(password)
    requires var lines := Split(content, '\n');
      var own := OwnLine(lines, host, user);
      own < |lines| && Split(SaveContent(content, host, user, password), '\n')
        == lines[own := Line(SavedEntry(Read(content).entries, host, user, password))]
    ensures |HeaderLines(Read(content).header)| <= OwnLine(Split(content, '\n'), host, user)
  {
    hide *;
    var (c, lines) := (Read(content), Split(content, '\n'));
    var own := OwnLine(lines, host, user);
    SavedLines(content, host, user, password);
    ReadRepresentable(content);
    HeaderLinesOk(c.header);
    ReadIs(content);
    OwnedIsKnown(lines, host, user);
    OwnLineIs(lines, host, user);
    OwnedAccount(lines[own], host, user);
    SavedWithHost(content, host, user, password);
    var saved := Lines(Saved(c.entries, host, user, password));
    Joined3(HeaderLines(c.header), saved);
    var h, e := HeaderLines(c.header), SavedEntry(c.entries, host, user, password);
    if own < |h| {
      HeaderComment(h, own);
      ChangedAtFront(lines, own, Line(e), h, saved + [""]);
      HeaderStops(lines[..own], lines[own], lines[own + 1..]);
      HeaderLinesAre(c.header);
      CommentedEntry(e);
    }
  }

  lemma Joined3(a: seq<string>, b: seq<string>)
    ensures a + b + [""] == a + (b + [""])
  {
  }

  lemma OwnedAccount(line: string, host: string, user: string)
    requires Owned(line, host, user)
    ensures Account(line)
  {
  }

  lemma ReadIs(content: string)
    ensures Read(content) == Taken(Split(content, '\n'))
  {
  }

  /** When only the account's own line is different after a save, the file has that shape. */
  lemma SavedShape(content: string, host: string, user: string, password: string)
    requires Sayable(host) && Sayable(user) && Sayable(password)
    requires var lines := Split(content, '\n');
      Split(SaveContent(content, host, user, password), '\n')
        == WithLine(lines, OwnLine(lines, host, user), Line(SavedEntry(Read(content).entries, host, user, password)))
    ensures var lines := Split(content, '\n'); TidyBut(lines, OwnLine(lines, host, user))
  {
    var (c, lines) := (Read(content), Split(content, '\n'));
    var own, h := OwnLine(lines, host, user), HeaderLines(c.header);
    SavedLines(content, host, user, password);
    ReadRepresentable(content);
    HeaderLinesOk(c.header);
    OwnedIsKnown(lines, host, user);
    SavedIs(c.entries, host, user, password);
    assert c.entries == Taken(lines).entries;
    if own < |lines| {
      assert Owned(lines[own], host, user);
      OwnIsNoComment(content, host, user, password);
      hide Saved, SavedEntry, Write, Representable, Line, Owned, Canonical, Account;
      KnownShape(lines, h, host, user, SavedEntry(c.entries, host, user, password));
    } else {
      hide Saved, SavedEntry, Write, Representable, Line, Canonical, Account;
      NewShape(lines, h, c.entries, SavedEntry(c.entries, host, user, password));
    }
  }

  /** "Leaving every other line alone": after a save the account has its line, in its old place or
      as the last, and every other line is what it was, to the letter, if and only if the file is a
      run of comments, accounts as they are written -- the account's own line aside -- and the
      last newline. */
  lemma SaveKeepsOthersIff(content: string, host: string, user: string, password: string)
    requires Sayable(host) && Sayable(user) && Sayable(password)
    ensures var lines := Split(content, '\n');
      var own := OwnLine(lines, host, user);
      Split(SaveContent(content, host, user, password), '\n')
        == WithLine(lines, own, Line(SavedEntry(Read(content).entries, host, user, password)))
      <==> TidyBut(lines, own)
  {
    var lines := Split(content, '\n');
    var own := OwnLine(lines, host, user);
    hide Read, SaveContent, Line, SavedEntry, WithLine, OwnLine, Shape;
    if Split(SaveContent(content, host, user, password), '\n')
      == WithLine(lines, own, Line(SavedEntry(Read(content).entries, host, user, password)))
    {
      SavedShape(content, host, user, password);
    }
    if k: nat :| Shape(lines, own, k) {
      ShapedSave(content, host, user, password, k);
    }
  }

  // ------------------------------------------------------------- forgetting

  /** After forgetting, no case variant of the account is left, and the rest keep their order. */
  lemma ForgetThenRead(content: string, host: string, user: string)
    ensures var (was, now) := (Read(content).entries, Read(ForgetContent(content, host, user)).entries);
      && now == Kept(was, host, user)
      && (forall e :: e in now <==> e in was && !SameAccount(e.host, e.user, host, user))
  {
    forall e: Entry ensures Matches(e, host, user) <==> SameAccount(e.host, e.user, host, user) {
      MatchesIff(e, host, user);
    }
    hide Matches, SameAccount;
    var was := Read(content);
    KeptIs(was.entries, host, user);
    ReadRepresentable(content);
    var kept := Kept(was.entries, host, user);
    assert forall i :: 0 <= i < |kept| ==> kept[i] in kept;
    if |kept| < |was.entries| {
      ReadOfWrite(kept, was.header);
    }
  }

  /** What was saved can be forgotten: both done, no password is found. */
  lemma SaveThenForget(content: string, host: string, user: string, password: string)
    ensures var after := ForgetContent(SaveContent(content, host, user, password), host, user);
            Lookup(Read(after).entries, host, user) == ""
  {
    var content' := SaveContent(content, host, user, password);
    ForgetThenRead(content', host, user);
    hide *;
    NoneUnknown(Read(ForgetContent(content', host, user)).entries, host, user);
    LookupUnknown(Read(ForgetContent(content', host, user)).entries, host, user);
  }

  lemma NoneUnknown(es: seq<Entry>, host: string, user: string)
    requires forall e :: e in es ==> !SameAccount(e.host, e.user, host, user)
    ensures !Known(es, host, user)
  {
    forall i | 0 <= i < |es| ensures !Matches(es[i], host, user) {
      MatchesIff(es[i], host, user);
    }
    hide Matches, SameAccount;
  }

  /** The file, and whether others may read it. A file that does not exist reads as an empty one. */
  class CredentialsFile {
    var content: string
    var exposed: bool

    /** readFile: nothing at all, with a warning, from a file that others can read. */
    method ReadFile() returns (entries: seq<Entry>, header: seq<string>, warn: bool)
      ensures warn == exposed
      ensures Contents(entries, header) == if exposed then Contents([], []) else Read(content)
    {
      entries, header, warn := [], [], exposed;
      if exposed {
        return;
      }
      var lines := Split(content, '\n');
      for k := 0 to |lines|
        invariant Contents(entries, header) == Taken(lines[..k])
      {
        assert lines[..k + 1][..k] == lines[..k];
        entries, header := TakeLine(entries, header, lines[k]);
      }
      assert lines[..|lines|] == lines;
    }

    /** The body of readFile's loop. */
    method TakeLine(entries: seq<Entry>, header: seq<string>, line: string) returns (es: seq<Entry>, hs: seq<string>)
      ensures Contents(es, hs) == Take(Contents(entries, header), line)
    {
      es, hs := entries, header;
      var trimmed := Trim(line);
      SkippedIsTrimmed(line);
      hide Trim, Fields, Head;
      if trimmed == "" || "#" <= trimmed {
        if |entries| == 0 && trimmed != "" {
          hs := hs + [line];
        }
      } else {
        match Fields(line) {
          case None =>
          case Some(f) => es := es + [Entry(Trim(f.host), Trim(f.user), f.password)];
        }
      }
    }

    /** writeEntries; the file is made private. */
    method WriteEntries(entries: seq<Entry>, header: seq<string>)
      modifies this
      ensures content == Write(entries, header) && !exposed
    {
      var text := Join(if |header| > 0 then header else DEFAULT_HEADER, "\n") + "\n";
      ghost var top := text;
      for k := 0 to |entries|
        invariant text == top + Body(entries[..k])
      {
        assert entries[..k + 1][..k] == entries[..k];
        text := text + (entries[k].host + "\t" + entries[k].user + "\t" + entries[k].password + "\n");
      }
      assert entries[..|entries|] == entries;
      content, exposed := text, false;
    }

    /** lookupFile. */
    method LookupFile(host: string, user: string) returns (password: string, warn: bool)
      ensures warn == exposed
      ensures password == if exposed then "" else Lookup(Read(content).entries, host, user)
    {
      var entries, header, w := ReadFile();
      for k := 0 to |entries|
        invariant Lookup(entries, host, user) == Lookup(entries[k..], host, user)
      {
        assert entries[k..][1..] == entries[k + 1..];
        if Matches(entries[k], host, user) {
          return entries[k].password, w;
        }
      }
      return "", w;
    }

    /** saveFile; a refused save changes nothing. */
    method SaveFile(host: string, user: string, password: string) returns (ok: bool)
      modifies this
      ensures ok <==> Sayable(host + user + password) && !old(exposed)
      ensures content == if ok then SaveContent(old(content), host, user, password) else old(content)
      ensures exposed == old(exposed)
    {
      if !Sayable(host + user + password) {
        return false;
      }
      var entries, header, warn := ReadFile();
      if warn {
        return false;
      }
      entries := Replace(entries, host, user, password);
      hide Sayable, Read, Write, Saved;
      WriteEntries(entries, header);
      return true;
    }

    method Replace(es: seq<Entry>, host: string, user: string, password: string) returns (entries: seq<Entry>)
      ensures entries == Saved(es, host, user, password)
    {
      SavedIs(es, host, user, password);
      hide Matches, Saved, SavedEntry;
      entries := es;
      var i := 0;
      while i < |entries|
        invariant i <= |es| && entries == es
        invariant i <= First(es, host, user)
      {
        if Matches(entries[i], host, user) {
          entries := entries[i := entries[i].(password := password)];
          return;
        }
        i := i + 1;
      }
      entries := entries + [Entry(host, user, password)];
    }

    /** forgetFile; an exposed file is left alone. */
    method ForgetFile(host: string, user: string)
      modifies this
      ensures content == if old(exposed) then old(content) else ForgetContent(old(content), host, user)
      ensures exposed == old(exposed)
    {
      var entries, header, warn := ReadFile();
      if warn {
        return;
      }
      var kept := Filter(entries, host, user);
      hide Read, Write, Kept;
      if |kept| != |entries| {
        WriteEntries(kept, header);
      }
    }

    method Filter(es: seq<Entry>, host: string, user: string) returns (kept: seq<Entry>)
      ensures kept == Kept(es, host, user)
    {
      kept := [];
      for k := 0 to |es|
        invariant kept == Kept(es[..k], host, user)
      {
        assert es[..k + 1][..k] == es[..k];
        if !Matches(es[k], host, user) {
          kept := kept + [es[k]];
        }
      }
      assert es[..|es|] == es;
    }
  }
}
