/** The terminal tee (internal/tui/teebuf/teebuf.go).

    A fixed ring holds the tail of everything written, and a capped list the pattern of the
    writes. */
module TeeBuf {
  import opened Text

  newtype Byte = x: int | 0 <= x < 256

  const MAX_WRITE_RECORDS: nat := 8192

  /** One Write call: when, counted from the first, and how many bytes. */
  datatype WriteRecord = WriteRecord(at: int, n: nat)

  /** The last n elements, or all of them. */
  function LastOf<T>(s: seq<T>, n: nat): (r: seq<T>)
    ensures |r| == if |s| <= n then |s| else n
    ensures forall i :: 0 <= i < |r| ==> r[i] == s[|s| - |r| + i]
  {
    if |s| <= n then s else s[|s| - n..]
  }

  /** The ring as a value. */
  datatype Ring = Ring(buf: seq<Byte>, pos: nat, full: bool) {
    predicate Ok() { pos < |buf| }

    function Tail(): seq<Byte>
      requires Ok()
    {
      if full then buf[pos..] + buf[..pos] else buf[..pos]
    }
  }

  /** s with p written over it from at on, as far as it goes. */
  function Over<T>(s: seq<T>, at: nat, p: seq<T>): seq<T>
    requires at + |p| <= |s|
  {
    s[..at] + p + s[at + |p|..]
  }

  /** record's ring, for a write no longer than the ring. */
  function PutShort(r: Ring, p: seq<Byte>): (q: Ring)
    requires r.Ok() && |p| <= |r.buf|
    ensures q.Ok() && |q.buf| == |r.buf|
  {
    var cap := |r.buf|;
    var n := if |p| <= cap - r.pos then |p| else cap - r.pos;
    var first := Over(r.buf, r.pos, p[..n]);
    var buf := if n < |p| then Over(first, 0, p[n..]) else first;
    var pos := (r.pos + |p|) % cap;
    Ring(buf, pos, r.full || n < |p| || (pos == 0 && |p| > 0))
  }

  function Put(r: Ring, p: seq<Byte>): (q: Ring)
    requires r.Ok()
    ensures q.Ok() && |q.buf| == |r.buf|
  {
    if |p| > |r.buf| then PutShort(r.(pos := 0, full := true), p[|p| - |r.buf|..]) else PutShort(r, p)
  }

  /** The ring holds the tail of the stream. */
  ghost predicate Holds(r: Ring, stream: seq<Byte>) {
    && r.Ok()
    && r.Tail() == LastOf(stream, |r.buf|)
    && (r.full <==> |stream| >= |r.buf|)
  }

  lemma HoldsIsOk(r: Ring, stream: seq<Byte>)
    requires Holds(r, stream)
    ensures r.Ok()
  {
  }

  /** A write that stays short of the ring's end. */
  lemma PutInside(r: Ring, stream: seq<Byte>, p: seq<Byte>)
    requires Holds(r, stream) && r.pos + |p| < |r.buf|
    ensures Holds(PutShort(r, p), stream + p)
  {
    PutInsideContent(r, p);
    hide PutShort, Over;
    if r.full {
      PushedOut(stream, p, |r.buf|);
      hide LastOf;
      assert r.Tail()[|p|..] == r.buf[r.pos..][|p|..] + r.buf[..r.pos];
      assert r.Tail()[|p|..] + p == r.buf[r.pos..][|p|..] + (r.buf[..r.pos] + p);
    }
  }

  lemma PutInsideContent(r: Ring, p: seq<Byte>)
    requires r.Ok() && r.pos + |p| < |r.buf|
    ensures var q := PutShort(r, p);
      && q.pos == r.pos + |p| && q.full == r.full
      && q.buf[..q.pos] == r.buf[..r.pos] + p && q.buf[q.pos..] == r.buf[r.pos..][|p|..]
  {
    assert (r.pos + |p|) % |r.buf| == r.pos + |p|;
    assert p[..|p|] == p;
    assert PutShort(r, p).buf == Over(r.buf, r.pos, p);
  }

  lemma PushedOut<T>(s: seq<T>, p: seq<T>, cap: nat)
    requires |s| >= cap >= |p|
    ensures LastOf(s + p, cap) == LastOf(s, cap)[|p|..] + p
  {
  }

  /** The ring after a write that reaches the end: the write's own end first, then what is kept
      of the old content, then the write's beginning. */
  lemma PutAroundContent(r: Ring, p: seq<Byte>)
    requires r.Ok() && |p| <= |r.buf| <= r.pos + |p|
    ensures PutShort(r, p).full && PutShort(r, p).pos == r.pos + |p| - |r.buf|
    ensures var n := |r.buf| - r.pos;
      PutShort(r, p).buf == p[n..] + r.buf[r.pos + |p| - |r.buf|..r.pos] + p[..n]
  {
    var n := |r.buf| - r.pos;
    WrapOnce(r.pos + |p|, |r.buf|);
    var first := Over(r.buf, r.pos, p[..n]);
    assert first == r.buf[..r.pos] + p[..n];
    if n < |p| {
      assert first[|p| - n..] == r.buf[|p| - n..r.pos] + p[..n];
    } else {
      assert p[n..] == [];
    }
  }

  lemma Rotated(q: Ring, front: seq<Byte>, mid: seq<Byte>, back: seq<Byte>)
    requires q.Ok() && q.full && q.buf == front + mid + back && q.pos == |front|
    ensures q.Tail() == mid + back + front
  {
    assert q.buf[q.pos..] == mid + back;
    assert q.buf[..q.pos] == front;
  }

  lemma Rejoined(mid: seq<Byte>, p: seq<Byte>, n: nat)
    requires n <= |p|
    ensures mid + p[..n] + p[n..] == mid + p
  {
  }

  lemma LastOfLonger<T>(s: seq<T>, p: seq<T>, cap: nat)
    requires |p| <= cap
    ensures LastOf(s + p, cap) == LastOf(s, cap - |p|) + p
  {
  }

  lemma PutAroundTail(r: Ring, p: seq<Byte>)
    requires r.Ok() && |p| <= |r.buf| <= r.pos + |p|
    ensures PutShort(r, p).Tail() == r.buf[r.pos + |p| - |r.buf|..r.pos] + p
  {
    PutAroundContent(r, p);
    hide PutShort;
    var n := |r.buf| - r.pos;
    var mid := r.buf[r.pos + |p| - |r.buf|..r.pos];
    Rejoined(mid, p, n);
    Rotated(PutShort(r, p), p[n..], mid, p[..n]);
  }

  /** A write that reaches the end, and may go round to the start. */
  lemma PutAround(r: Ring, stream: seq<Byte>, p: seq<Byte>)
    requires Holds(r, stream) && |p| <= |r.buf| <= r.pos + |p|
    ensures Holds(PutShort(r, p), stream + p)
  {
    PutAroundContent(r, p);
    PutAroundTail(r, p);
    KeptPart(r, stream, |r.buf| - |p|);
    LastOfLonger(stream, p, |r.buf|);
    hide PutShort, LastOf;
  }

  lemma WrapOnce(a: nat, cap: nat)
    requires cap <= a < 2 * cap
    ensures a % cap == a - cap
  {
  }

  /** What the bytes just before the write position are. */
  lemma KeptPart(r: Ring, stream: seq<Byte>, k: nat)
    requires Holds(r, stream) && k <= r.pos
    ensures r.buf[r.pos - k..r.pos] == LastOf(stream, k) && |LastOf(stream, k)| == k
  {
  }

  /** A write as long as the ring, from its start. */
  lemma PutWhole(r: Ring, p: seq<Byte>)
    requires r.Ok() && r.pos == 0 && |p| == |r.buf|
    ensures PutShort(r, p) == Ring(p, 0, true)
  {
    assert p[..|p|] == p && |p| % |p| == 0;
  }

  lemma LastOfEnd<T>(s: seq<T>, p: seq<T>, cap: nat)
    requires cap <= |p|
    ensures LastOf(s + p, cap) == p[|p| - cap..]
  {
  }

  /** A write longer than the ring. */
  lemma PutOver(r: Ring, stream: seq<Byte>, p: seq<Byte>)
    requires r.Ok() && |p| > |r.buf|
    ensures Holds(Put(r, p), stream + p)
  {
    var tail := p[|p| - |r.buf|..];
    PutWhole(r.(pos := 0, full := true), tail);
    LastOfEnd(stream, p, |r.buf|);
    hide PutShort, LastOf;
    assert Ring(tail, 0, true).Tail() == tail + [];
  }

  /** After any write, short or longer than the ring, the ring holds the stream's tail. */
  lemma PutHolds(r: Ring, stream: seq<Byte>, p: seq<Byte>)
    requires Holds(r, stream)
    ensures Holds(Put(r, p), stream + p)
  {
    if |p| > |r.buf| {
      PutOver(r, stream, p);
    } else if r.pos + |p| < |r.buf| {
      PutInside(r, stream, p);
    } else {
      PutAround(r, stream, p);
    }
  }

  function Written(r: Ring, writes: seq<seq<Byte>>): (q: Ring)
    requires r.Ok()
    ensures q.Ok() && |q.buf| == |r.buf|
  {
    if writes == [] then r else Put(Written(r, writes[..|writes| - 1]), writes[|writes| - 1])
  }

  function Stream(writes: seq<seq<Byte>>): seq<Byte> {
    if writes == [] then [] else Stream(writes[..|writes| - 1]) + writes[|writes| - 1]
  }

  /** Tail is exactly the last min(capacity, total) bytes written, over any writes. */
  lemma {:induction false} TailIsLastBytes(buf: seq<Byte>, writes: seq<seq<Byte>>)
    requires buf != []
    ensures Holds(Written(Ring(buf, 0, false), writes), Stream(writes))
    ensures Written(Ring(buf, 0, false), writes).Tail() == LastOf(Stream(writes), |buf|)
  {
    if writes != [] {
      TailIsLastBytes(buf, writes[..|writes| - 1]);
      PutHolds(Written(Ring(buf, 0, false), writes[..|writes| - 1]),
               Stream(writes[..|writes| - 1]), writes[|writes| - 1]);
    }
  }

  class Writer {
    const ring: array<Byte>
    var pos: nat
    var full: bool
    var writes: nat
    var bytes: nat
    var start: Option<int>
    var records: seq<WriteRecord>
    var dropped: nat
    ghost var stream: seq<Byte>
    ghost var history: seq<WriteRecord>

    ghost function View(): Ring
      reads this, ring
    {
      Ring(ring[..], pos, full)
    }

    ghost predicate Valid()
      reads this, ring
    {
      && Holds(View(), stream)
      && bytes == |stream| && writes == |history|
      && records == LastOf(history, MAX_WRITE_RECORDS)
      && |records| + dropped == writes
    }

    constructor (capacity: nat)
      requires capacity > 0
      ensures Valid() && fresh(ring) && ring.Length == capacity && stream == [] && history == []
    {
      ring := new Byte[capacity](_ => 0);
      pos, full, writes, bytes, start, records, dropped := 0, false, 0, 0, None, [], 0;
      stream, history := [], [];
    }

    /** copy(ring[at:], p). */
    method Copy(at: nat, p: seq<Byte>) returns (n: nat)
      requires at <= ring.Length
      modifies ring
      ensures n == if |p| <= ring.Length - at then |p| else ring.Length - at
      ensures ring[..] == Over(old(ring[..]), at, p[..n])
    {
      n := 0;
      while n < |p| && at + n < ring.Length
        invariant n <= |p| && at + n <= ring.Length
        invariant forall k :: 0 <= k < n ==> ring[at + k] == p[k]
        invariant forall k :: 0 <= k < ring.Length && !(at <= k < at + n) ==> ring[k] == old(ring[k])
      {
        ring[at + n] := p[n];
        n := n + 1;
      }
      assert ring[..] == Over(old(ring[..]), at, p[..n]);
    }

    /** The ring part of record. */
    method PutBytes(data: seq<Byte>)
      requires pos < ring.Length
      modifies this`pos, this`full, ring
      ensures View() == Put(old(View()), data)
    {
      var p := data;
      hide PutShort;
      if |p| > ring.Length {
        p := p[|p| - ring.Length..];
        pos := 0;
        full := true;
      }
      CopyAround(p);
    }

    /** The two copies, and where they leave off. */
    method CopyAround(p: seq<Byte>)
      requires pos < ring.Length && |p| <= ring.Length
      modifies this`pos, this`full, ring
      ensures View() == PutShort(old(View()), p)
    {
      hide Over;
      var n := Copy(pos, p);
      if n < |p| {
        var m := Copy(0, p[n..]);
        assert p[n..][..m] == p[n..];
        full := true;
      }
      pos := (pos + |p|) % ring.Length;
      if pos == 0 && |p| > 0 {
        full := true;
      }
    }

    method Record(p: seq<Byte>, now: int)
      requires Valid()
      modifies this, ring
      ensures Valid()
      ensures stream == old(stream) + p
      ensures start == if old(start).None? then Some(now) else old(start)
      ensures history == old(history) + [WriteRecord(now - start.value, |p|)]
    {
      hide Holds, Put, PutShort, LastOf, Over;
      HoldsIsOk(View(), stream);
      writes := writes + 1;
      bytes := bytes + |p|;
      if start.None? {
        start := Some(now);
      }
      Note(WriteRecord(now - start.value, |p|));
      PutHolds(View(), stream, p);
      ghost var was := View();
      PutBytes(p);
      assert View() == Put(was, p);
      stream := stream + p;
    }

    /** The write pattern: the oldest record goes when the cap is reached. */
    method Note(r: WriteRecord)
      requires records == LastOf(history, MAX_WRITE_RECORDS) && |records| + dropped == |history|
      modifies this`records, this`dropped, this`history
      ensures records == LastOf(history, MAX_WRITE_RECORDS) && |records| + dropped == |history|
      ensures history == old(history) + [r]
    {
      if |records| >= MAX_WRITE_RECORDS {
        records := records[1..];
        dropped := dropped + 1;
      }
      records := records + [r];
      history := history + [r];
    }

    method Tail() returns (out: seq<Byte>)
      requires Valid()
      ensures out == LastOf(stream, ring.Length)
    {
      if !full {
        return ring[..pos];
      }
      return ring[pos..] + ring[..pos];
    }

    method Writes() returns (rs: seq<WriteRecord>, lost: nat)
      requires Valid()
      ensures rs == LastOf(history, 8192) && |rs| + lost == |history|
    {
      return records, dropped;
    }
  }
}
