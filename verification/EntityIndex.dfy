/** The two indexes over the entities a connection knows of (internal/lily/state.go).

    Objects are shared between an index by handle and an index by lowercase name. A user or a
    discussion has a handle; a group has only its name. */
module EntityIndex {
  import opened Text

  datatype Kind = KindUser | KindDisc | KindGroup

  datatype Record = Record(
    kind: Kind, handle: string, name: string, blurb: string, state: string, pronoun: string,
    title: string, attrib: string, creation: int, members: seq<string>)

  function Blank(kind: Kind, handle: string): Record {
    Record(kind, handle, "", "", "", "", "", "", 0, [])
  }

  /** The state as a value: an object is a number, in the order they were made. */
  datatype Index = Index(
    objs: seq<Record>, byHandle: map<string, nat>, byName: map<string, nat>, discMembership: set<string>) {
    function Obj(i: nat): Record {
      if i < |objs| then objs[i] else Blank(KindGroup, "")
    }

    function Set(i: nat, r: Record): Index {
      if i < |objs| then this.(objs := objs[i := r]) else this
    }

    /** An object the state answers for: it has its handle, or it is a group. */
    predicate Live(i: nat) {
      i < |objs| &&
      ((objs[i].handle in byHandle && byHandle[objs[i].handle] == i) || IsGroup(objs[i]))
    }
  }

  /** Groups come without a handle. */
  predicate IsGroup(r: Record) {
    r.kind == KindGroup && r.handle == ""
  }

  const NOTHING := Index([], map[], map[], {})

  // ------------------------------------------------------------- updates

  datatype Update =
    | User(handle: string, name: string, blurb: string, state: string, pronoun: string)
    | Disc(handle: string, name: string, title: string, attrib: string, creation: int)
    | Group(name: string, members: seq<string>)
    | Rename(source: string, value: string)
    | Blurb(source: string, value: string)
    | Presence(source: string, value: string)
    | Retitle(source: string, value: string)
    | Destroy(recips: seq<string>)
    | Join(recips: seq<string>)
    | Quit(recips: seq<string>)

  /** getOrCreate's first half. */
  function Created(s: Index, handle: string, kind: Kind): Index {
    if handle in s.byHandle then s
    else s.(objs := s.objs + [Blank(kind, handle)], byHandle := s.byHandle[handle := |s.objs|])
  }

  /** getOrCreate's second half, on object i; the name itself changes later. */
  function Reindexed(s: Index, i: nat, name: string): Index {
    var was := s.Obj(i).name;
    if was == name then s
    else
      var dropped := if was != "" then s.byName - {Lower(was)} else s.byName;
      s.(byName := dropped[Lower(name) := i])
  }

  function Obtained(s: Index, handle: string, name: string, kind: Kind): Index {
    var t := Created(s, handle, kind);
    Reindexed(t, t.byHandle[handle], name)
  }

  /** A new record under the handle, and the name indexed. */
  function Upsert(s: Index, handle: string, kind: Kind, r: Record): Index {
    var t := Obtained(s, handle, r.name, kind);
    t.Set(t.byHandle[handle], r)
  }

  /** The record an upsert starts from. */
  function Known(s: Index, handle: string, kind: Kind): Record {
    if handle in s.byHandle then s.Obj(s.byHandle[handle]) else Blank(kind, handle)
  }

  function Renamed(s: Index, handle: string, value: string): Index {
    if handle !in s.byHandle then s
    else
      var i := s.byHandle[handle];
      s.(byName := (s.byName - {Lower(s.Obj(i).name)})[Lower(value) := i]).Set(i, s.Obj(i).(name := value))
  }

  function Destroyed(s: Index, handle: string): Index {
    if handle in s.byHandle && s.Obj(s.byHandle[handle]).kind == KindDisc then
      var r := s.Obj(s.byHandle[handle]);
      s.(byName := s.byName - {Lower(r.name)}, byHandle := s.byHandle - {r.handle},
         discMembership := s.discMembership - {r.handle})
    else s
  }

  function DestroyAll(s: Index, handles: seq<string>): Index {
    if handles == [] then s else Destroyed(DestroyAll(s, handles[..|handles| - 1]), handles[|handles| - 1])
  }

  /** A group of its own for a name that nothing goes by. */
  function WithGroup(s: Index, name: string): Index {
    var key := Lower(name);
    if key in s.byName then s
    else s.(objs := s.objs + [Blank(KindGroup, "").(name := name)], byName := s.byName[key := |s.objs|])
  }

  function Grouped(s: Index, name: string, members: seq<string>): Index {
    var key := Lower(name);
    var t := WithGroup(s, name);
    t.Set(t.byName[key], t.Obj(t.byName[key]).(members := members))
  }

  /** A record with a field changed that no index depends on. */
  function With(r: Record, u: Update): Record {
    match u
    case Blurb(_, value) => r.(blurb := value)
    case Presence(_, value) => r.(state := value)
    case Retitle(_, value) => r.(title := value)
    case _ => r
  }

  function Edited(s: Index, handle: string, u: Update): Index {
    if handle in s.byHandle then s.Set(s.byHandle[handle], With(s.Obj(s.byHandle[handle]), u)) else s
  }

  function Apply(s: Index, u: Update): Index {
    match u
    case User(h, name, blurb, state, pronoun) =>
      Upsert(s, h, KindUser, Known(s, h, KindUser).(name := name, blurb := blurb, state := state, pronoun := pronoun))
    case Disc(h, name, title, attrib, creation) =>
      Upsert(s, h, KindDisc,
             Known(s, h, KindDisc).(name := name, title := title, attrib := attrib, creation := creation))
    case Group(name, members) => Grouped(s, name, members)
    case Rename(h, value) => Renamed(s, h, value)
    case Blurb(h, value) => Edited(s, h, u)
    case Presence(h, value) => Edited(s, h, u)
    case Retitle(h, value) => Edited(s, h, u)
    case Destroy(recips) => DestroyAll(s, recips)
    case Join(recips) => s.(discMembership := s.discMembership + set h | h in recips)
    case Quit(recips) => s.(discMembership := s.discMembership - set h | h in recips)
  }

  // ------------------------------------------------------------- the indexes agree

  /** The name index is what a scan of the live objects gives: each named one is under its
      lowercase name, and no key is stale. */
  ghost predicate Agrees(s: Index) {
    && (forall h :: h in s.byHandle ==> s.byHandle[h] < |s.objs| && s.objs[s.byHandle[h]].handle == h)
    && (forall i: nat :: s.Live(i) && s.objs[i].name != "" ==>
          Lower(s.objs[i].name) in s.byName && s.byName[Lower(s.objs[i].name)] == i)
    && (forall k :: k in s.byName ==>
          k != "" && s.Live(s.byName[k]) && Lower(s.objs[s.byName[k]].name) == k)
    && (forall i: nat :: i < |s.objs| && IsGroup(s.objs[i]) ==> s.objs[i].name != "")
  }

  /** No live object but i goes by the name. */
  ghost predicate Free(s: Index, name: string, i: nat) {
    forall j: nat :: s.Live(j) && j != i ==> !SameBarCase(s.objs[j].name, name)
  }

  lemma FreeIff(s: Index, name: string, i: nat)
    ensures Free(s, name, i) <==> forall j: nat :: s.Live(j) && j != i ==> Lower(s.objs[j].name) != Lower(name)
  {
    forall j: nat | s.Live(j) ensures Lower(s.objs[j].name) == Lower(name) <==> SameBarCase(s.objs[j].name, name) {
      LowerIsFolding(s.objs[j].name, name);
    }
  }

  /** When an update keeps the indexes in agreement. */
  ghost predicate Keeps(s: Index, u: Update) {
    match u
    case User(h, name, _, _, _) => NameFits(s, h, KindUser, name)
    case Disc(h, name, _, _, _) => NameFits(s, h, KindDisc, name)
    case Group(name, _) => name != ""
    case Rename(h, value) => h !in s.byHandle || (value != "" && Free(s, value, s.byHandle[h]))
    case _ => true
  }

  ghost predicate NameFits(s: Index, handle: string, kind: Kind, name: string) {
    || name == Known(s, handle, kind).name
    || (name != "" && Free(s, name, if handle in s.byHandle then s.byHandle[handle] else |s.objs|))
  }

  /** Two live objects never share a name. */
  lemma NamesUnique(s: Index, i: nat, j: nat)
    requires Agrees(s) && s.Live(i) && s.Live(j)
    requires s.objs[i].name != "" && SameBarCase(s.objs[i].name, s.objs[j].name)
    ensures i == j
  {
    LowerIsFolding(s.objs[i].name, s.objs[j].name);
    assert |s.objs[i].name| == |Lower(s.objs[i].name)|;
  }

  lemma CreatedAgrees(s: Index, handle: string, kind: Kind)
    requires Agrees(s) && kind != KindGroup
    ensures var t := Created(s, handle, kind);
      Agrees(t) && handle in t.byHandle && t.Obj(t.byHandle[handle]) == Known(s, handle, kind)
  {
    hide Lower;
  }

  lemma CreatedFree(s: Index, handle: string, kind: Kind, name: string)
    requires Agrees(s) && kind != KindGroup
    ensures var t := Created(s, handle, kind); Free(t, name, t.byHandle[handle]) <==> Free(s, name, t.byHandle[handle])
  {
    var t := Created(s, handle, kind);
    assert forall j: nat :: j < |s.objs| ==> (s.Live(j) <==> t.Live(j)) && s.objs[j] == t.objs[j];
    assert forall j: nat :: t.Live(j) && j != t.byHandle[handle] ==> j < |s.objs|;
  }

  /** Object i under a new record, and under the record's name. */
  function Moved(s: Index, i: nat, r: Record): Index {
    s.(byName := (s.byName - {Lower(s.Obj(i).name)})[Lower(r.name) := i]).Set(i, r)
  }

  predicate SameKey(r: Record, q: Record) {
    r.kind == q.kind && r.handle == q.handle
  }

  lemma MovedLive(s: Index, i: nat, r: Record)
    requires i < |s.objs| && SameKey(s.objs[i], r)
    ensures forall j: nat :: s.Live(j) <==> Moved(s, i, r).Live(j)
    ensures Moved(s, i, r).objs == s.objs[i := r]
  {
  }

  lemma MovedAgrees(s: Index, i: nat, r: Record)
    requires Agrees(s) && s.Live(i) && SameKey(s.objs[i], r) && r.name != "" && Free(s, r.name, i)
    ensures Agrees(Moved(s, i, r))
  {
    MovedLive(s, i, r);
    FreeIff(s, r.name, i);
    OtherKeys(s, i);
    assert |Lower(r.name)| > 0 && forall n :: |Lower(n)| == |n|;
    hide Free, Lower;
    MovedNamed(s, i, r);
  }

  /** Nothing else is under a live object's key. */
  lemma OtherKeys(s: Index, i: nat)
    requires Agrees(s) && s.Live(i)
    ensures forall j: nat :: s.Live(j) && j != i && s.objs[j].name != "" ==>
      Lower(s.objs[j].name) != Lower(s.objs[i].name)
  {
  }

  lemma MovedNamed(s: Index, i: nat, r: Record)
    requires Agrees(s) && s.Live(i) && SameKey(s.objs[i], r) && r.name != "" && Lower(r.name) != ""
    requires forall j: nat :: s.Live(j) && j != i ==> Lower(s.objs[j].name) != Lower(r.name)
    requires forall j: nat :: s.Live(j) && j != i && s.objs[j].name != "" ==>
      Lower(s.objs[j].name) != Lower(s.objs[i].name)
    ensures Agrees(Moved(s, i, r))
  {
    MovedLive(s, i, r);
    hide Lower;
  }

  lemma MovedClashes(s: Index, i: nat, r: Record)
    requires Agrees(s) && s.Live(i) && SameKey(s.objs[i], r) && !(r.name != "" && Free(s, r.name, i))
    ensures !Agrees(Moved(s, i, r))
  {
    var t := Moved(s, i, r);
    MovedLive(s, i, r);
    FreeIff(s, r.name, i);
    hide Free;
    if r.name != "" {
      var j: nat :| s.Live(j) && j != i && Lower(s.objs[j].name) == Lower(r.name);
      assert |s.objs[j].name| == |Lower(r.name)| > 0;
      assert t.Live(j) && t.objs[j] == s.objs[j];
    } else {
      assert Lower(r.name) == "" && "" in t.byName;
    }
  }

  /** Fields that no index depends on. */
  lemma SetAgrees(s: Index, i: nat, r: Record)
    requires Agrees(s) && i < |s.objs| && SameKey(s.objs[i], r) && s.objs[i].name == r.name
    ensures Agrees(s.Set(i, r))
  {
    var t := s.Set(i, r);
    assert forall j: nat :: (s.Live(j) <==> t.Live(j)) && (j < |s.objs| ==> s.objs[j].name == t.objs[j].name);
  }

  lemma UpsertIsMove(s: Index, handle: string, kind: Kind, r: Record)
    requires Agrees(s) && kind != KindGroup && r.name != Known(s, handle, kind).name
    ensures var t := Created(s, handle, kind); Upsert(s, handle, kind, r) == Moved(t, t.byHandle[handle], r)
  {
    var t := Created(s, handle, kind);
    var was := t.Obj(t.byHandle[handle]).name;
    CreatedAgrees(s, handle, kind);
    if was == "" {
      assert Lower(was) == "" && t.byName - {""} == t.byName;
    }
  }

  lemma UpsertKeeps(s: Index, handle: string, kind: Kind, r: Record)
    requires Agrees(s) && kind != KindGroup && SameKey(Known(s, handle, kind), r)
    ensures Agrees(Upsert(s, handle, kind, r)) <==> NameFits(s, handle, kind, r.name)
  {
    var t := Created(s, handle, kind);
    var i := t.byHandle[handle];
    CreatedAgrees(s, handle, kind);
    if r.name == Known(s, handle, kind).name {
      SetAgrees(t, i, r);
    } else {
      UpsertIsMove(s, handle, kind, r);
      CreatedFree(s, handle, kind, r.name);
      if r.name != "" && Free(t, r.name, i) {
        MovedAgrees(t, i, r);
      } else {
        MovedClashes(t, i, r);
      }
    }
  }

  lemma RenamedKeeps(s: Index, handle: string, value: string)
    requires Agrees(s) && handle in s.byHandle
    ensures Agrees(Renamed(s, handle, value)) <==> value != "" && Free(s, value, s.byHandle[handle])
  {
    var i := s.byHandle[handle];
    var r := s.Obj(i).(name := value);
    assert Renamed(s, handle, value) == Moved(s, i, r);
    if value != "" && Free(s, value, i) {
      MovedAgrees(s, i, r);
    } else {
      MovedClashes(s, i, r);
    }
  }

  lemma DestroyedKeeps(s: Index, handle: string)
    requires Agrees(s)
    ensures Agrees(Destroyed(s, handle))
  {
  }

  lemma {:induction false} DestroyAllKeeps(s: Index, handles: seq<string>)
    requires Agrees(s)
    ensures Agrees(DestroyAll(s, handles))
  {
    if handles != [] {
      DestroyAllKeeps(s, handles[..|handles| - 1]);
      DestroyedKeeps(DestroyAll(s, handles[..|handles| - 1]), handles[|handles| - 1]);
    }
  }

  lemma GroupedKeeps(s: Index, name: string, members: seq<string>)
    requires Agrees(s)
    ensures Agrees(Grouped(s, name, members)) <==> name != ""
  {
    var key := Lower(name);
    assert |key| == |name|;
    if key in s.byName {
      var i := s.byName[key];
      SetAgrees(s, i, s.Obj(i).(members := members));
    } else {
      NewGroup(s, name, members);
    }
  }

  lemma NewGroup(s: Index, name: string, members: seq<string>)
    requires Agrees(s) && Lower(name) !in s.byName
    ensures Agrees(Grouped(s, name, members)) <==> name != ""
  {
  }

  /** From agreeing indexes, an update leaves them in agreement exactly when the name it gives is
      the object's own or a new one that no other live object has. */
  lemma AgreesIff(s: Index, u: Update)
    requires Agrees(s)
    ensures Agrees(Apply(s, u)) <==> Keeps(s, u)
  {
    hide Agrees, Upsert, Grouped, Destroyed, Free;
    match u
    case User(h, name, blurb, state, pronoun) =>
      UpsertKeeps(s, h, KindUser,
                  Known(s, h, KindUser).(name := name, blurb := blurb, state := state, pronoun := pronoun));
    case Disc(h, name, title, attrib, creation) =>
      UpsertKeeps(s, h, KindDisc,
                  Known(s, h, KindDisc).(name := name, title := title, attrib := attrib, creation := creation));
    case Group(name, members) => GroupedKeeps(s, name, members);
    case Rename(h, value) => if h in s.byHandle { RenamedKeeps(s, h, value); }
    case Destroy(recips) => DestroyAllKeeps(s, recips);
    case _ => FieldsKeep(s, u);
  }

  lemma FieldsKeep(s: Index, u: Update)
    requires Agrees(s) && (u.Blurb? || u.Presence? || u.Retitle? || u.Join? || u.Quit?)
    ensures Agrees(Apply(s, u))
  {
    var t := Apply(s, u);
    if u.Blurb? || u.Presence? || u.Retitle? {
      if u.source in s.byHandle {
        var i := s.byHandle[u.source];
        SetAgrees(s, i, t.objs[i]);
      }
    } else {
      assert forall j: nat :: s.Live(j) <==> t.Live(j);
    }
  }

  /** Which update an event is. */
  function Notified(
    s: Index, whoami: string, event: string, source: string, recips: seq<string>, value: string): Index {
    match event
    case "rename" => Apply(s, Rename(source, value))
    case "blurb" => Apply(s, Blurb(source, value))
    case "here" => Apply(s, Presence(source, "here"))
    case "away" => Apply(s, Presence(source, "away"))
    case "disconnect" => Apply(s, Presence(source, "away"))
    case "destroy" => Apply(s, Destroy(recips))
    case "retitle" => Apply(s, Retitle(source, value))
    case "join" => if source == whoami then Apply(s, Join(recips)) else s
    case "quit" => if source == whoami then Apply(s, Quit(recips)) else s
    case _ => s
  }

  function ApplyAll(s: Index, us: seq<Update>): Index {
    if us == [] then s else Apply(ApplyAll(s, us[..|us| - 1]), us[|us| - 1])
  }

  ghost predicate AllKeep(us: seq<Update>) {
    forall n {:trigger us[n]} :: 0 <= n < |us| ==> Keeps(ApplyAll(NOTHING, us[..n]), us[n])
  }

  lemma OneMore(us: seq<Update>, n: nat)
    requires n < |us|
    ensures ApplyAll(NOTHING, us[..n + 1]) == Apply(ApplyAll(NOTHING, us[..n]), us[n])
  {
    assert us[..n + 1][..n] == us[..n];
  }

  lemma {:induction false} AgreesAfter(us: seq<Update>, n: nat)
    requires AllKeep(us) && n <= |us|
    ensures Agrees(ApplyAll(NOTHING, us[..n]))
  {
    if n > 0 {
      AgreesAfter(us, n - 1);
      OneMore(us, n - 1);
      AgreesIff(ApplyAll(NOTHING, us[..n - 1]), us[n - 1]);
    }
  }

  /** Over any sequence of updates: agreement after each of them if and only if each fits. */
  lemma AgreesThroughout(us: seq<Update>)
    ensures (forall n :: 0 <= n <= |us| ==> Agrees(ApplyAll(NOTHING, us[..n]))) <==> AllKeep(us)
  {
    hide Agrees, Keeps, Apply;
    if AllKeep(us) {
      forall n | 0 <= n <= |us| ensures Agrees(ApplyAll(NOTHING, us[..n])) {
        AgreesAfter(us, n);
      }
    }
    if forall n :: 0 <= n <= |us| ==> Agrees(ApplyAll(NOTHING, us[..n])) {
      forall n | 0 <= n < |us| ensures Keeps(ApplyAll(NOTHING, us[..n]), us[n]) {
        assert Agrees(ApplyAll(NOTHING, us[..n])) && Agrees(ApplyAll(NOTHING, us[..n + 1]));
        OneMore(us, n);
        AgreesIff(ApplyAll(NOTHING, us[..n]), us[n]);
      }
    }
  }

  // ------------------------------------------------------------- what is recorded

  /** What the state knows under a handle. */
  function Entry(s: Index, h: string): Option<Record> {
    if h in s.byHandle && s.byHandle[h] < |s.objs| then Some(s.objs[s.byHandle[h]]) else None
  }

  /** Every handle has its own object, whatever has become of the names. */
  ghost predicate HandlesOk(s: Index) {
    forall h :: h in s.byHandle ==> s.byHandle[h] < |s.objs| && s.objs[s.byHandle[h]].handle == h
  }

  /** Another handle's record, and the membership, are as they were. */
  ghost predicate OthersStay(s: Index, t: Index, h: string) {
    HandlesOk(t) && t.discMembership == s.discMembership && forall g :: g != h ==> Entry(t, g) == Entry(s, g)
  }

  /** A user record is known under its handle from then on, with the fields it came with; what it does
      not carry is as it was, or empty. */
  lemma UserRecorded(s: Index, h: string, name: string, blurb: string, state: string, pronoun: string)
    requires HandlesOk(s)
    ensures var t := Apply(s, User(h, name, blurb, state, pronoun));
      OthersStay(s, t, h)
      && Entry(t, h) == Some(match Entry(s, h)
                             case Some(r) => Record(r.kind, h, name, blurb, state, pronoun,
                                                    r.title, r.attrib, r.creation, r.members)
                             case None => Record(KindUser, h, name, blurb, state, pronoun, "", "", 0, []))
  {
    UserIs(s, h, name, blurb, state, pronoun);
    ObtainedObject(s, h, name, KindUser);
    ObtainedStays(s, h, name, KindUser);
  }

  lemma DiscRecorded(s: Index, h: string, name: string, title: string, attrib: string, creation: int)
    requires HandlesOk(s)
    ensures var t := Apply(s, Disc(h, name, title, attrib, creation));
      OthersStay(s, t, h)
      && Entry(t, h) == Some(match Entry(s, h)
                             case Some(r) => Record(r.kind, h, name, r.blurb, r.state, r.pronoun,
                                                    title, attrib, creation, r.members)
                             case None => Record(KindDisc, h, name, "", "", "", title, attrib, creation, []))
  {
    DiscIs(s, h, name, title, attrib, creation);
    ObtainedObject(s, h, name, KindDisc);
    ObtainedStays(s, h, name, KindDisc);
  }

  lemma ObtainedStays(s: Index, h: string, name: string, kind: Kind)
    requires HandlesOk(s)
    ensures var t := Obtained(s, h, name, kind); OthersStay(s, t, h) && h in t.byHandle && t.byHandle[h] < |t.objs|
  {
    ReindexedKeepsHandles(Created(s, h, kind), Created(s, h, kind).byHandle[h], name);
    hide Lower;
  }

  /** Every event of the wire, on what is known under any handle and on the membership. */
  lemma EventRecorded(s: Index, whoami: string, event: string, source: string, recips: seq<string>, value: string,
                      h: string)
    requires HandlesOk(s)
    ensures var t := Notified(s, whoami, event, source, recips, value); var was := Entry(s, h);
      && HandlesOk(t)
      && Entry(t, h)
           == (if was.None? then None
               else if event == "destroy" then
                 (if h in recips && was.value.kind == KindDisc then None else was)
               else if h != source then was
               else if event == "rename" then Some(was.value.(name := value))
               else if event == "blurb" then Some(was.value.(blurb := value))
               else if event == "here" then Some(was.value.(state := "here"))
               else if event == "away" || event == "disconnect" then Some(was.value.(state := "away"))
               else if event == "retitle" then Some(was.value.(title := value))
               else was)
      && (h in t.discMembership
          <==> (if event == "join" && source == whoami then h in s.discMembership || h in recips
                else if event == "quit" && source == whoami then h in s.discMembership && h !in recips
                else if event == "destroy" && was.Some? && was.value.kind == KindDisc then
                  h in s.discMembership && h !in recips
                else h in s.discMembership))
  {
    hide *;
    EventKnown(s, whoami, event, source, recips, value, h);
    EventJoined(s, whoami, event, source, recips, value, h);
  }

  /** Which update an event is, if any. */
  lemma UpdateOf(s: Index, whoami: string, event: string, source: string, recips: seq<string>, value: string)
    ensures var t := Notified(s, whoami, event, source, recips, value);
      && (event == "rename" ==> t == Apply(s, Rename(source, value)))
      && (event == "blurb" ==> t == Apply(s, Blurb(source, value)))
      && (event == "here" ==> t == Apply(s, Presence(source, "here")))
      && (event == "away" || event == "disconnect" ==> t == Apply(s, Presence(source, "away")))
      && (event == "retitle" ==> t == Apply(s, Retitle(source, value)))
      && (event == "destroy" ==> t == DestroyAll(s, recips))
      && (event == "join" ==>
            t == if source == whoami then s.(discMembership := s.discMembership + set h | h in recips) else s)
      && (event == "quit" ==>
            t == if source == whoami then s.(discMembership := s.discMembership - set h | h in recips) else s)
      && (event !in {"rename", "blurb", "here", "away", "disconnect", "retitle", "destroy", "join", "quit"} ==> t == s)
  {
    hide DestroyAll, Renamed, Edited, Lower;
  }

  lemma EventKnown(s: Index, whoami: string, event: string, source: string, recips: seq<string>, value: string,
                   h: string)
    requires HandlesOk(s)
    ensures var t := Notified(s, whoami, event, source, recips, value); var was := Entry(s, h);
      && HandlesOk(t)
      && Entry(t, h)
           == (if was.None? then None
               else if event == "destroy" then
                 (if h in recips && was.value.kind == KindDisc then None else was)
               else if h != source then was
               else if event == "rename" then Some(was.value.(name := value))
               else if event == "blurb" then Some(was.value.(blurb := value))
               else if event == "here" then Some(was.value.(state := "here"))
               else if event == "away" || event == "disconnect" then Some(was.value.(state := "away"))
               else if event == "retitle" then Some(was.value.(title := value))
               else was)
  {
    UpdateOf(s, whoami, event, source, recips, value);
    hide Lower, Apply, Notified, DestroyAll;
    if event == "destroy" {
      DestroyRecorded(s, recips, h);
    } else if event == "rename" {
      RenameRecorded(s, source, value);
    } else if event == "blurb" {
      FieldRecorded(s, Blurb(source, value));
    } else if event == "here" {
      FieldRecorded(s, Presence(source, "here"));
    } else if event == "away" || event == "disconnect" {
      FieldRecorded(s, Presence(source, "away"));
    } else if event == "retitle" {
      FieldRecorded(s, Retitle(source, value));
    }
  }

  lemma EventJoined(s: Index, whoami: string, event: string, source: string, recips: seq<string>, value: string,
                    h: string)
    requires HandlesOk(s)
    ensures var t := Notified(s, whoami, event, source, recips, value); var was := Entry(s, h);
      (h in t.discMembership)
        <==> (if event == "join" && source == whoami then h in s.discMembership || h in recips
              else if event == "quit" && source == whoami then h in s.discMembership && h !in recips
              else if event == "destroy" && was.Some? && was.value.kind == KindDisc then
                h in s.discMembership && h !in recips
              else h in s.discMembership)
  {
    UpdateOf(s, whoami, event, source, recips, value);
    hide Lower, Apply, Notified, DestroyAll;
    if event == "destroy" {
      DestroyRecorded(s, recips, h);
    } else if event == "rename" {
      RenameRecorded(s, source, value);
    } else if event == "blurb" {
      FieldRecorded(s, Blurb(source, value));
    } else if event == "here" {
      FieldRecorded(s, Presence(source, "here"));
    } else if event == "away" || event == "disconnect" {
      FieldRecorded(s, Presence(source, "away"));
    } else if event == "retitle" {
      FieldRecorded(s, Retitle(source, value));
    }
  }

  lemma {:induction false} DestroyRecorded(s: Index, recips: seq<string>, h: string)
    requires HandlesOk(s)
    ensures var t := DestroyAll(s, recips); var gone := Entry(s, h).Some? && Entry(s, h).value.kind == KindDisc;
      && HandlesOk(t)
      && Entry(t, h) == (if gone && h in recips then None else Entry(s, h))
      && (h in t.discMembership <==> h in s.discMembership && !(gone && h in recips))
  {
    if recips != [] {
      DestroyRecorded(s, recips[..|recips| - 1], h);
      DestroyRecorded(s, recips[..|recips| - 1], recips[|recips| - 1]);
    }
  }

  lemma RenameRecorded(s: Index, source: string, value: string)
    requires HandlesOk(s)
    ensures var t := Apply(s, Rename(source, value));
      OthersStay(s, t, source)
      && Entry(t, source) == if source in s.byHandle then Some(Entry(s, source).value.(name := value)) else None
  {
    hide Lower;
  }

  lemma FieldRecorded(s: Index, u: Update)
    requires HandlesOk(s) && (u.Blurb? || u.Presence? || u.Retitle?)
    ensures var t := Apply(s, u);
      OthersStay(s, t, u.source)
      && Entry(t, u.source) == if u.source in s.byHandle then Some(With(Entry(s, u.source).value, u)) else None
  {
  }

  /** A group record changes no handle's record but the members of the object that goes by the name. */
  lemma GroupRecorded(s: Index, name: string, members: seq<string>, h: string)
    requires Agrees(s) && name != ""
    ensures var t := Apply(s, Group(name, members));
      && HandlesOk(t) && t.discMembership == s.discMembership
      && Entry(t, h)
           == if Entry(s, h).Some? && SameBarCase(Entry(s, h).value.name, name)
              then Some(Entry(s, h).value.(members := members)) else Entry(s, h)
  {
    if Lower(name) in s.byName {
      var i := s.byName[Lower(name)];
      GroupTakenForAnother(s, name, members, i);
    }
    if h in s.byHandle {
      LookupIsScan(s, name, s.byHandle[h]);
    }
  }

  // ------------------------------------------------------------- lookups

  /** LookupName finds the one live object that goes by the name, and finds one if there is one. */
  lemma LookupIsScan(s: Index, name: string, i: nat)
    requires Agrees(s)
    ensures Lower(name) in s.byName && s.byName[Lower(name)] == i
      <==> name != "" && s.Live(i) && SameBarCase(s.objs[i].name, name)
  {
    if i < |s.objs| { LowerIsFolding(s.objs[i].name, name); }
  }

  /** Live object i goes by the name. */
  predicate GoesBy(s: Index, i: nat, name: string) {
    s.Live(i) && SameBarCase(s.objs[i].name, name)
  }

  /** A group announced under the name of a live object gives that object its members, whatever it is,
      and changes nothing else. */
  lemma GroupTakenForAnother(s: Index, name: string, members: seq<string>, i: nat)
    requires Agrees(s) && name != "" && GoesBy(s, i, name)
    ensures Grouped(s, name, members) == s.Set(i, s.objs[i].(members := members))
  {
    LookupIsScan(s, name, i);
    hide Agrees;
  }

  /** A group record gives a group of that name with those members exactly when no user and no
      discussion goes by the name. */
  lemma GroupGivenIff(s: Index, name: string, members: seq<string>)
    requires Agrees(s) && name != ""
    ensures var t := Grouped(s, name, members);
      (exists i: nat :: GoesBy(t, i, name) && IsGroup(t.objs[i]) && t.objs[i].members == members)
      <==> !(exists i: nat :: GoesBy(s, i, name) && !IsGroup(s.objs[i]))
  {
    var t := Grouped(s, name, members);
    if i: nat :| GoesBy(s, i, name) {
      GroupTakenForAnother(s, name, members, i);
      SameLive(s, t, i, members);
      assert GoesBy(t, i, name) && t.objs[i].members == members;
      forall j: nat | GoesBy(s, j, name) ensures j == i { OneGoesBy(s, name, i, j); }
      forall j: nat | GoesBy(t, j, name) ensures j == i { assert GoesBy(s, j, name); }
    } else {
      NobodyGoesBy(s, name);
      assert GoesBy(t, |s.objs|, name);
    }
  }

  lemma OneGoesBy(s: Index, name: string, i: nat, j: nat)
    requires Agrees(s) && name != "" && GoesBy(s, i, name) && GoesBy(s, j, name)
    ensures i == j
  {
    LookupIsScan(s, name, i);
    LookupIsScan(s, name, j);
  }

  lemma NobodyGoesBy(s: Index, name: string)
    requires Agrees(s) && name != "" && forall i: nat :: !GoesBy(s, i, name)
    ensures Lower(name) !in s.byName
  {
    if Lower(name) in s.byName {
      LookupIsScan(s, name, s.byName[Lower(name)]);
      assert GoesBy(s, s.byName[Lower(name)], name);
    }
  }

  lemma SameLive(s: Index, t: Index, i: nat, members: seq<string>)
    requires i < |s.objs| && t == s.Set(i, s.objs[i].(members := members))
    ensures forall j: nat :: (s.Live(j) <==> t.Live(j)) && (s.Live(j) ==> s.objs[j].name == t.objs[j].name)
    ensures IsGroup(s.objs[i]) <==> IsGroup(t.objs[i])
  {
  }

  // ------------------------------------------------------------- the objects

  class Entity {
    const kind: Kind
    const handle: string
    var name: string
    var blurb: string
    var state: string
    var pronoun: string
    var title: string
    var attrib: string
    var creation: int
    var members: seq<string>

    ghost function View(): Record
      reads this
    {
      Record(kind, handle, name, blurb, state, pronoun, title, attrib, creation, members)
    }

    constructor (kind: Kind, handle: string)
      ensures View() == Blank(kind, handle)
    {
      this.kind, this.handle := kind, handle;
      name, blurb, state, pronoun, title, attrib, creation, members := "", "", "", "", "", "", 0, [];
    }

    method SetUser(name: string, blurb: string, state: string, pronoun: string)
      modifies this
      ensures View() == old(View()).(name := name, blurb := blurb, state := state, pronoun := pronoun)
    {
      this.name := name;
      this.blurb := blurb;
      this.state := state;
      this.pronoun := pronoun;
    }

    method SetDisc(name: string, title: string, attrib: string, creation: int)
      modifies this
      ensures View() == old(View()).(name := name, title := title, attrib := attrib, creation := creation)
    {
      this.name := name;
      this.title := title;
      this.attrib := attrib;
      this.creation := creation;
    }
  }

  lemma ObtainedObject(s: Index, handle: string, name: string, kind: Kind)
    requires handle in s.byHandle ==> s.byHandle[handle] < |s.objs|
    ensures var t := Obtained(s, handle, name, kind);
      handle in t.byHandle && t.Obj(t.byHandle[handle]) == Known(s, handle, kind)
  {
  }

  lemma ObtainedIs(s: Index, handle: string, name: string, kind: Kind)
    ensures var t := Created(s, handle, kind);
      handle in t.byHandle && Obtained(s, handle, name, kind) == Reindexed(t, t.byHandle[handle], name)
  {
  }

  lemma ReindexedKeepsHandles(s: Index, i: nat, name: string)
    ensures Reindexed(s, i, name).byHandle == s.byHandle
  {
  }

  /** A rename in the steps of ApplyRename. */
  lemma RenamedIs(s: Index, handle: string, value: string)
    requires handle in s.byHandle
    ensures var i := s.byHandle[handle];
      var dropped := s.(byName := s.byName - {Lower(s.Obj(i).name)});
      var named := dropped.Set(i, dropped.Obj(i).(name := value));
      Apply(s, Rename(handle, value)) == named.(byName := named.byName[Lower(value) := i])
  {
  }

  /** A record's update in the steps of ApplyUser and of ApplyDisc. */
  lemma UserIs(s: Index, handle: string, name: string, blurb: string, state: string, pronoun: string)
    requires handle in s.byHandle ==> s.byHandle[handle] < |s.objs|
    ensures var t := Obtained(s, handle, name, KindUser);
      && handle in t.byHandle
      && var i := t.byHandle[handle];
        Apply(s, User(handle, name, blurb, state, pronoun))
          == t.Set(i, t.Obj(i).(name := name, blurb := blurb, state := state, pronoun := pronoun))
  {
    ObtainedObject(s, handle, name, KindUser);
    hide Obtained, Known;
  }

  lemma DiscIs(s: Index, handle: string, name: string, title: string, attrib: string, creation: int)
    requires handle in s.byHandle ==> s.byHandle[handle] < |s.objs|
    ensures var t := Obtained(s, handle, name, KindDisc);
      && handle in t.byHandle
      && var i := t.byHandle[handle];
        Apply(s, Disc(handle, name, title, attrib, creation))
          == t.Set(i, t.Obj(i).(name := name, title := title, attrib := attrib, creation := creation))
  {
    ObtainedObject(s, handle, name, KindDisc);
    hide Obtained, Known;
  }

  lemma GroupIs(s: Index, name: string, members: seq<string>)
    ensures var t := WithGroup(s, name);
      && Lower(name) in t.byName
      && var i := t.byName[Lower(name)]; Apply(s, Group(name, members)) == t.Set(i, t.Obj(i).(members := members))
  {
  }

  lemma UnknownSource(s: Index, u: Update)
    requires (u.Rename? || u.Blurb? || u.Presence? || u.Retitle?) && u.source !in s.byHandle
    ensures Apply(s, u) == s
  {
  }

  lemma EditedIs(s: Index, u: Update)
    requires (u.Blurb? || u.Presence? || u.Retitle?) && u.source in s.byHandle
    ensures var i := s.byHandle[u.source]; Apply(s, u) == s.Set(i, With(s.Obj(i), u))
  {
  }

  /** index is the state as a value, objs the objects made so far; an entity that the two maps
      share is one object of both. */
  class State {
    var whoami: string
    var byHandle: map<string, Entity>
    var byName: map<string, Entity>
    var discMembership: set<string>
    ghost var objs: seq<Entity>
    ghost var index: Index

    ghost predicate Valid()
      reads this, objs
    {
      && Shown(objs, index.objs)
      && Points(byHandle, index.byHandle, objs) && Points(byName, index.byName, objs)
      && discMembership == index.discMembership
    }

    constructor ()
      ensures Valid() && index == NOTHING && objs == []
    {
      whoami, byHandle, byName, discMembership, objs, index := "", map[], map[], {}, [], NOTHING;
    }

    /** A new object, not indexed yet. */
    method Make(kind: Kind, handle: string) returns (e: Entity)
      requires Valid()
      modifies this`objs, this`index
      ensures Valid() && fresh(e) && objs == old(objs) + [e]
      ensures index == old(index).(objs := old(index).objs + [Blank(kind, handle)])
    {
      e := new Entity(kind, handle);
      objs := objs + [e];
      index := index.(objs := index.objs + [Blank(kind, handle)]);
    }

    /** The object is number i and has its record. */
    ghost predicate At(e: Entity, i: nat)
      reads this, objs, e
    {
      i < |objs| == |index.objs| && e == objs[i] && e in objs && e.View() == index.Obj(i) && e.name == index.Obj(i).name
    }

    /** Where the object of a handle is. */
    lemma Located(handle: string)
      requires Valid()
      ensures handle in byHandle <==> handle in index.byHandle
      ensures handle in byHandle ==> At(byHandle[handle], index.byHandle[handle])
    {
    }

    /** getOrCreate's first half. */
    method Find(handle: string, kind: Kind) returns (e: Entity)
      requires Valid()
      modifies this`byHandle, this`objs, this`index
      ensures Valid() && index == Created(old(index), handle, kind)
      ensures handle in index.byHandle && index.byHandle[handle] < |objs| && e == objs[index.byHandle[handle]]
      ensures forall o :: o in objs ==> o in old(objs) || fresh(o)
    {
      if handle in byHandle {
        e := byHandle[handle];
      } else {
        e := Make(kind, handle);
        byHandle := byHandle[handle := e];
        index := index.(byHandle := index.byHandle[handle := |objs| - 1]);
      }
    }

    /** getOrCreate's second half. */
    method Reindex(e: Entity, name: string, ghost i: nat)
      requires Valid() && i < |objs| && e == objs[i]
      modifies this`byName, this`index
      ensures Valid() && index == Reindexed(old(index), i, name)
    {
      assert e.View() == index.Obj(i);
      if e.name != name {
        if e.name != "" {
          Drop(Lower(e.name));
        }
        Add(Lower(name), e, i);
      }
    }

    method GetOrCreate(handle: string, name: string, kind: Kind) returns (e: Entity)
      requires Valid()
      modifies this
      ensures Valid() && whoami == old(whoami)
      ensures index == Obtained(old(index), handle, name, kind)
      ensures handle in index.byHandle && index.byHandle[handle] < |objs| && e == objs[index.byHandle[handle]]
      ensures forall o :: o in objs ==> o in old(objs) || fresh(o)
    {
      hide *;
      e := Find(handle, kind);
      ghost var found := index;
      Reindex(e, name, index.byHandle[handle]);
      ObtainedIs(old(index), handle, name, kind);
      ReindexedKeepsHandles(found, found.byHandle[handle], name);
    }

    method FillUser(e: Entity, ghost i: nat, name: string, blurb: string, state: string, pronoun: string)
      requires Valid() && i < |objs| && e == objs[i]
      modifies e, this`index
      ensures Valid()
      ensures index == old(index).Set(
        i, old(index).Obj(i).(name := name, blurb := blurb, state := state, pronoun := pronoun))
    {
      hide Points;
      assert e.View() == index.objs[i];
      e.SetUser(name, blurb, state, pronoun);
      index := index.Set(i, e.View());
    }

    method ApplyUser(handle: string, name: string, blurb: string, state: string, pronoun: string)
      requires Valid()
      modifies this, objs
      ensures Valid() && whoami == old(whoami)
      ensures index == Apply(old(index), User(handle, name, blurb, state, pronoun))
      ensures forall o :: o in objs ==> o in old(objs) || fresh(o)
    {
      hide *;
      Located(handle);
      UserIs(index, handle, name, blurb, state, pronoun);
      var e := GetOrCreate(handle, name, KindUser);
      assert e in objs;
      FillUser(e, index.byHandle[handle], name, blurb, state, pronoun);
    }

    method FillDisc(e: Entity, ghost i: nat, name: string, title: string, attrib: string, creation: int)
      requires Valid() && i < |objs| && e == objs[i]
      modifies e, this`index
      ensures Valid()
      ensures index == old(index).Set(
        i, old(index).Obj(i).(name := name, title := title, attrib := attrib, creation := creation))
    {
      hide Points;
      assert e.View() == index.objs[i];
      e.SetDisc(name, title, attrib, creation);
      index := index.Set(i, e.View());
    }

    method ApplyDisc(handle: string, name: string, title: string, attrib: string, creation: int)
      requires Valid()
      modifies this, objs
      ensures Valid() && whoami == old(whoami)
      ensures index == Apply(old(index), Disc(handle, name, title, attrib, creation))
      ensures forall o :: o in objs ==> o in old(objs) || fresh(o)
    {
      hide *;
      Located(handle);
      DiscIs(index, handle, name, title, attrib, creation);
      var e := GetOrCreate(handle, name, KindDisc);
      assert e in objs;
      FillDisc(e, index.byHandle[handle], name, title, attrib, creation);
    }

    lemma Named(key: string)
      requires Valid()
      ensures key in byName <==> key in index.byName
      ensures key in byName ==> index.byName[key] < |objs| && byName[key] == objs[index.byName[key]]
      ensures |objs| == |index.objs|
    {
    }

    /** The object ApplyGroup finds or makes. */
    method FindGroup(name: string) returns (e: Entity)
      requires Valid()
      modifies this`byName, this`objs, this`index
      ensures Valid() && index == WithGroup(old(index), name)
      ensures Lower(name) in index.byName && index.byName[Lower(name)] < |objs| && e == objs[index.byName[Lower(name)]]
      ensures forall o :: o in objs ==> o in old(objs) || fresh(o)
    {
      var key := Lower(name);
      Named(key);
      hide Points, Shown, Lower;
      if key in byName {
        e := byName[key];
      } else {
        e := Make(KindGroup, "");
        FillName(e, |objs| - 1, name);
        Add(key, e, |objs| - 1);
      }
    }

    method ApplyGroup(name: string, members: seq<string>)
      requires Valid()
      modifies this, objs
      ensures Valid() && whoami == old(whoami)
      ensures index == Apply(old(index), Group(name, members))
      ensures forall o :: o in objs ==> o in old(objs) || fresh(o)
    {
      hide *;
      GroupIs(index, name, members);
      var e := FindGroup(name);
      assert e in objs;
      FillMembers(e, index.byName[Lower(name)], members);
    }

    method FillMembers(e: Entity, ghost i: nat, members: seq<string>)
      requires Valid() && i < |objs| && e == objs[i]
      modifies e, this`index
      ensures Valid() && index == old(index).Set(i, old(index).Obj(i).(members := members))
    {
      hide Points;
      assert e.View() == index.objs[i];
      e.members := members;
      index := index.Set(i, e.View());
    }

    /** The rename case of ApplyNotify. */
    method ApplyRename(source: string, value: string)
      requires Valid()
      modifies this, objs
      ensures Valid() && whoami == old(whoami) && objs == old(objs)
      ensures index == Apply(old(index), Rename(source, value))
    {
      hide *;
      Located(source);
      if source in byHandle {
        var e := byHandle[source];
        ghost var i := index.byHandle[source];
        RenamedIs(index, source, value);
        Drop(Lower(e.name));
        FillName(e, i, value);
        Add(Lower(value), e, i);
      } else {
        UnknownSource(index, Rename(source, value));
      }
    }

    method FillName(e: Entity, ghost i: nat, value: string)
      requires Valid() && i < |objs| && e == objs[i]
      modifies e, this`index
      ensures Valid() && index == old(index).Set(i, old(index).Obj(i).(name := value))
    {
      hide Points;
      assert e.View() == index.objs[i];
      e.name := value;
      index := index.Set(i, e.View());
    }

    /** delete(s.byName, key). */
    method Drop(key: string)
      requires Valid()
      modifies this`byName, this`index
      ensures Valid() && index == old(index).(byName := old(index).byName - {key})
    {
      PointsWithout(byName, index.byName, objs, key);
      hide Points, Shown;
      byName := byName - {key};
      index := index.(byName := index.byName - {key});
    }

    /** s.byName[key] = e. */
    method Add(key: string, e: Entity, ghost i: nat)
      requires Valid() && i < |objs| && e == objs[i]
      modifies this`byName, this`index
      ensures Valid() && index == old(index).(byName := old(index).byName[key := i])
    {
      PointsWith(byName, index.byName, objs, key, i);
      hide Points, Shown;
      byName := byName[key := e];
      index := index.(byName := index.byName[key := i]);
    }

    /** The destroy case of ApplyNotify. */
    method ApplyDestroy(recips: seq<string>)
      requires Valid()
      modifies this
      ensures Valid() && whoami == old(whoami) && objs == old(objs)
      ensures index == Apply(old(index), Destroy(recips))
    {
      ghost var was := index;
      for k := 0 to |recips|
        invariant Valid() && whoami == old(whoami) && objs == old(objs)
        invariant index == DestroyAll(was, recips[..k])
      {
        assert recips[..k + 1][..k] == recips[..k];
        DestroyOne(recips[k]);
      }
      assert recips[..|recips|] == recips;
    }

    /** delete(s.byHandle, h) and delete(s.discMembership, h). */
    method Forget(h: string)
      requires Valid()
      modifies this`byHandle, this`discMembership, this`index
      ensures Valid()
      ensures index == old(index).(
        byHandle := old(index).byHandle - {h}, discMembership := old(index).discMembership - {h})
    {
      PointsWithout(byHandle, index.byHandle, objs, h);
      hide Points, Shown;
      byHandle := byHandle - {h};
      discMembership := discMembership - {h};
      index := index.(byHandle := index.byHandle - {h}, discMembership := index.discMembership - {h});
    }

    method DestroyOne(h: string)
      requires Valid()
      modifies this`byName, this`byHandle, this`discMembership, this`index
      ensures Valid() && index == Destroyed(old(index), h)
    {
      hide Points, Shown;
      Located(h);
      if h in byHandle {
        var e := byHandle[h];
        if e.kind == KindDisc {
          Drop(Lower(e.name));
          Forget(e.handle);
        }
      }
    }

    /** The cases of ApplyNotify that change one field. */
    method ApplyField(u: Update)
      requires Valid() && (u.Blurb? || u.Presence? || u.Retitle?)
      modifies this, objs
      ensures Valid() && whoami == old(whoami) && objs == old(objs)
      ensures index == Apply(old(index), u)
    {
      hide *;
      Located(u.source);
      if u.source in byHandle {
        var e := byHandle[u.source];
        EditedIs(index, u);
        FillField(e, index.byHandle[u.source], u);
      } else {
        UnknownSource(index, u);
      }
    }

    method FillField(e: Entity, ghost i: nat, u: Update)
      requires Valid() && i < |objs| && e == objs[i] && (u.Blurb? || u.Presence? || u.Retitle?)
      modifies e, this`index
      ensures Valid() && index == old(index).Set(i, With(old(index).Obj(i), u))
    {
      hide Points;
      assert e.View() == index.objs[i];
      match u {
        case Blurb(_, value) => e.blurb := value;
        case Presence(_, value) => e.state := value;
        case Retitle(_, value) => e.title := value;
      }
      index := index.Set(i, e.View());
    }

    /** ApplyNotify, on the events that change the state. */
    method ApplyNotify(event: string, source: string, recips: seq<string>, value: string)
      requires Valid()
      modifies this, objs
      ensures Valid() && whoami == old(whoami) && objs == old(objs)
      ensures index == Notified(old(index), whoami, event, source, recips, value)
    {
      hide Apply, Shown, Points;
      match event {
        case "rename" => ApplyRename(source, value);
        case "blurb" => ApplyField(Blurb(source, value));
        case "here" => ApplyField(Presence(source, "here"));
        case "away" => ApplyField(Presence(source, "away"));
        case "disconnect" => ApplyField(Presence(source, "away"));
        case "destroy" => ApplyDestroy(recips);
        case "retitle" => ApplyField(Retitle(source, value));
        case "join" => if source == whoami { Member(recips, true); }
        case "quit" => if source == whoami { Member(recips, false); }
        case _ =>
      }
    }

    method Member(recips: seq<string>, joined: bool)
      requires Valid()
      modifies this`discMembership, this`index
      ensures Valid() && index == Apply(old(index), if joined then Join(recips) else Quit(recips))
    {
      hide Points, Shown;
      var all := set h | h in recips;
      discMembership := if joined then discMembership + all else discMembership - all;
      index := index.(discMembership := discMembership);
    }

    /** LookupHandle. */
    method LookupHandle(handle: string) returns (e: Option<Entity>)
      requires Valid()
      ensures e.Some? <==> Entry(index, handle).Some?
      ensures e.Some? ==> e.value.View() == Entry(index, handle).value
    {
      e := if handle in byHandle then Some(byHandle[handle]) else None;
    }

    /** LookupName: what the name index holds; on indexes in agreement that is the one live object of
        that name, or none when there is none. */
    method LookupName(name: string) returns (e: Option<Entity>)
      requires Valid()
      ensures e == if Lower(name) in byName then Some(byName[Lower(name)]) else None
      ensures Agrees(index) ==> (e.Some? ==>
        exists i: nat :: i < |objs| && e.value == objs[i] && index.Live(i) && SameBarCase(objs[i].name, name))
      ensures Agrees(index) && name != "" ==> (e.None? ==>
        forall i: nat :: i < |objs| && index.Live(i) ==> !SameBarCase(objs[i].name, name))
      ensures Agrees(index) && name == "" ==> e.None?
    {
      if Agrees(index) {
        forall i: nat {
          LookupIsScan(index, name, i);
        }
      }
      e := if Lower(name) in byName then Some(byName[Lower(name)]) else None;
    }
  }

  /** Different objects, each with its record. */
  ghost predicate Shown(objs: seq<Entity>, records: seq<Record>)
    reads objs
  {
    && |objs| == |records|
    && (forall i :: 0 <= i < |objs| ==> objs[i].View() == records[i])
    && (forall i, j :: 0 <= i < j < |objs| ==> objs[i] != objs[j])
  }

  lemma PointsWithout(m: map<string, Entity>, n: map<string, nat>, objs: seq<Entity>, k: string)
    requires Points(m, n, objs)
    ensures Points(m - {k}, n - {k}, objs)
  {
  }

  lemma PointsWith(m: map<string, Entity>, n: map<string, nat>, objs: seq<Entity>, k: string, i: nat)
    requires Points(m, n, objs) && i < |objs|
    ensures Points(m[k := objs[i]], n[k := i], objs)
  {
  }

  /** A map to objects, told apart by their numbers. */
  ghost predicate Points(m: map<string, Entity>, n: map<string, nat>, objs: seq<Entity>) {
    m.Keys == n.Keys && forall k :: k in n ==> n[k] < |objs| && m[k] == objs[n[k]]
  }
}
