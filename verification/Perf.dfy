/** Latency histograms and the window ring that coarsens as a session ages
    (internal/tui/ui/perf.go). Durations and times are in nanoseconds. */
module Perf {
  import opened Text

  const US: int := 1000

  /** Inclusive upper bounds of the buckets; one more bucket takes the rest. */
  function Edges(): (e: seq<int>)
    ensures |e| == 13
    ensures forall i, j :: 0 <= i < j < |e| ==> e[i] < e[j]
  {
    [100 * US, 250 * US, 500 * US, 1000 * US, 2000 * US, 5000 * US, 10000 * US, 25000 * US,
     50000 * US, 100000 * US, 250000 * US, 500000 * US, 1000000 * US]
  }

  const BUCKETS: nat := 14

  /** The overflow bucket. */
  const LAST: nat := 13

  // ------------------------------------------------------------- histograms

  datatype Hist = Hist(counts: seq<nat>, n: nat, sum: int, max: int)

  const EMPTY := Hist([0, 0, 0, 0, 0, 0, 0, 0, 0, 0, 0, 0, 0, 0], 0, 0, 0)

  /** The first bucket from i on whose edge is not below d. */
  function BucketFrom(d: int, i: nat): (b: nat)
    requires i <= LAST
    ensures i <= b <= LAST
    ensures forall k :: i <= k < b ==> Edges()[k] < d
    ensures b < LAST ==> d <= Edges()[b]
    decreases LAST - i
  {
    if i == LAST || d <= Edges()[i] then i else BucketFrom(d, i + 1)
  }

  function Bucket(d: int): (b: nat)
    ensures b < BUCKETS
  {
    BucketFrom(d, 0)
  }

  predicate HistOk(h: Hist) {
    |h.counts| == BUCKETS
  }

  function Added(h: Hist, d: int): (r: Hist)
    requires HistOk(h)
    ensures HistOk(r)
  {
    Hist(h.counts[Bucket(d) := h.counts[Bucket(d)] + 1], h.n + 1, h.sum + d, if d > h.max then d else h.max)
  }

  function Merged(a: Hist, b: Hist): (r: Hist)
    requires HistOk(a) && HistOk(b)
    ensures HistOk(r)
  {
    Hist(seq(BUCKETS, i requires 0 <= i < BUCKETS => a.counts[i] + b.counts[i]),
         a.n + b.n, a.sum + b.sum, if b.max > a.max then b.max else a.max)
  }

  /** The histogram of the samples. */
  function HistOf(samples: seq<int>): (h: Hist)
    ensures HistOk(h)
  {
    if samples == [] then EMPTY else Added(HistOf(samples[..|samples| - 1]), samples[|samples| - 1])
  }

  lemma MergeAdd(a: Hist, b: Hist, d: int)
    requires HistOk(a) && HistOk(b)
    ensures Merged(a, Added(b, d)) == Added(Merged(a, b), d)
  {
    assert Merged(a, Added(b, d)).counts == Added(Merged(a, b), d).counts;
  }

  lemma MergeEmpty(h: Hist)
    requires HistOk(h) && h.max >= 0
    ensures Merged(h, EMPTY) == h
  {
    assert Merged(h, EMPTY).counts == h.counts;
  }

  /** Merging is lossless: it gives the histogram of all the samples together. */
  lemma {:induction false} MergeIsConcatenation(a: seq<int>, b: seq<int>)
    ensures Merged(HistOf(a), HistOf(b)) == HistOf(a + b)
    decreases |b|
  {
    hide Merged, Added;
    if b == [] {
      assert a + b == a;
      MaxNonNegative(a);
      MergeEmpty(HistOf(a));
    } else {
      var init, d := b[..|b| - 1], b[|b| - 1];
      MergeIsConcatenation(a, init);
      assert (a + b)[..|a + b| - 1] == a + init;
      MergeAdd(HistOf(a), HistOf(init), d);
    }
  }

  lemma {:induction false} MaxNonNegative(samples: seq<int>)
    ensures HistOf(samples).max >= 0
    ensures forall i :: 0 <= i < |samples| ==> samples[i] <= HistOf(samples).max
    ensures HistOf(samples).n == |samples|
  {
    hide Bucket;
    if samples != [] {
      var init := samples[..|samples| - 1];
      MaxNonNegative(init);
      assert forall i :: 0 <= i < |init| ==> samples[i] == init[i];
    }
  }

  /** How many samples are at most x. */
  function AtMost(samples: seq<int>, x: int): nat {
    if samples == [] then 0 else
      AtMost(samples[..|samples| - 1], x) + if samples[|samples| - 1] <= x then 1 else 0
  }

  function Below(samples: seq<int>, x: int): nat {
    if samples == [] then 0 else
      Below(samples[..|samples| - 1], x) + if samples[|samples| - 1] < x then 1 else 0
  }

  function SumTo(counts: seq<nat>, i: nat): nat
    requires i <= |counts|
  {
    if i == 0 then 0 else SumTo(counts, i - 1) + counts[i - 1]
  }

  /** quantile from bucket i on, having seen that many samples. */
  function QuantileFrom(h: Hist, want: nat, i: nat, seen: nat): int
    requires HistOk(h) && i <= BUCKETS
    decreases BUCKETS - i
  {
    if i == BUCKETS then h.max
    else if seen + h.counts[i] > want then (if i == LAST then h.max else Edges()[i])
    else QuantileFrom(h, want, i + 1, seen + h.counts[i])
  }

  /** The index of the sample asked for: the quantile is the rational num / den. */
  function Wanted(h: Hist, num: nat, den: nat): nat
    requires den > 0
  {
    h.n * num / den
  }

  function Quantile(h: Hist, num: nat, den: nat): int
    requires HistOk(h) && den > 0
  {
    if h.n == 0 then 0 else QuantileFrom(h, Wanted(h, num, den), 0, 0)
  }

  lemma {:induction false} SumToUpdate(counts: seq<nat>, b: nat, i: nat)
    requires b < |counts| && i <= |counts|
    ensures SumTo(counts[b := counts[b] + 1], i) == SumTo(counts, i) + if b < i then 1 else 0
    decreases i
  {
    if i > 0 {
      SumToUpdate(counts, b, i - 1);
    }
  }

  /** The buckets up to an edge hold exactly the samples at most that edge. */
  lemma {:induction false} BucketsCount(samples: seq<int>, i: nat)
    requires i < LAST
    ensures SumTo(HistOf(samples).counts, i + 1) == AtMost(samples, Edges()[i])
    ensures SumTo(HistOf(samples).counts, BUCKETS) == |samples|
  {
    hide Edges, BucketFrom, SumTo;
    if samples == [] {
      ZeroSum(i + 1);
      ZeroSum(BUCKETS);
    } else {
      var init, d := samples[..|samples| - 1], samples[|samples| - 1];
      BucketsCount(init, i);
      SumToUpdate(HistOf(init).counts, Bucket(d), i + 1);
      SumToUpdate(HistOf(init).counts, Bucket(d), BUCKETS);
      assert Bucket(d) <= i <==> d <= Edges()[i];
    }
  }

  /** The limits, written out. */
  lemma LimitsAre(samples: seq<int>)
    ensures var c := HistOf(samples).counts;
            && SumTo(c, 1) == AtMost(samples, 100_000) && SumTo(c, 2) == AtMost(samples, 250_000)
            && SumTo(c, 3) == AtMost(samples, 500_000) && SumTo(c, 4) == AtMost(samples, 1_000_000)
            && SumTo(c, 5) == AtMost(samples, 2_000_000) && SumTo(c, 6) == AtMost(samples, 5_000_000)
            && SumTo(c, 7) == AtMost(samples, 10_000_000) && SumTo(c, 8) == AtMost(samples, 25_000_000)
            && SumTo(c, 9) == AtMost(samples, 50_000_000) && SumTo(c, 10) == AtMost(samples, 100_000_000)
            && SumTo(c, 11) == AtMost(samples, 250_000_000) && SumTo(c, 12) == AtMost(samples, 500_000_000)
            && SumTo(c, 13) == AtMost(samples, 1_000_000_000) && SumTo(c, 14) == |samples|
  {
    hide HistOf, SumTo, AtMost, Edges;
    Limits();
    BucketsCount(samples, 0);
    BucketsCount(samples, 1);
    BucketsCount(samples, 2);
    BucketsCount(samples, 3);
    BucketsCount(samples, 4);
    BucketsCount(samples, 5);
    BucketsCount(samples, 6);
    BucketsCount(samples, 7);
    BucketsCount(samples, 8);
    BucketsCount(samples, 9);
    BucketsCount(samples, 10);
    BucketsCount(samples, 11);
    BucketsCount(samples, 12);
  }

  lemma Limits()
    ensures var e := Edges();
            && e[0] == 100_000 && e[1] == 250_000 && e[2] == 500_000 && e[3] == 1_000_000 && e[4] == 2_000_000
            && e[5] == 5_000_000 && e[6] == 10_000_000 && e[7] == 25_000_000 && e[8] == 50_000_000
            && e[9] == 100_000_000 && e[10] == 250_000_000 && e[11] == 500_000_000 && e[12] == 1_000_000_000
  {
  }

  function Total(samples: seq<int>): int {
    if samples == [] then 0 else Total(samples[..|samples| - 1]) + samples[|samples| - 1]
  }

  /** The largest sample that is not negative, or zero. */
  predicate IsTop(samples: seq<int>, m: int) {
    m >= 0 && (forall i :: 0 <= i < |samples| ==> samples[i] <= m) && (m == 0 || m in samples)
  }

  /** The other counters. */
  lemma {:induction false} HistIs(samples: seq<int>)
    ensures HistOf(samples).n == |samples| && HistOf(samples).sum == Total(samples)
    ensures IsTop(samples, HistOf(samples).max)
  {
    hide Bucket;
    if samples != [] {
      HistIs(samples[..|samples| - 1]);
    }
  }

  lemma {:induction false} ZeroSum(i: nat)
    requires i <= BUCKETS
    ensures SumTo(EMPTY.counts, i) == 0
  {
    if i > 0 { ZeroSum(i - 1); }
  }

  /** The bucket in which the running count passes want. */
  lemma {:induction false} QuantileBucket(h: Hist, want: nat, i: nat) returns (b: nat)
    requires HistOk(h) && i < BUCKETS
    requires SumTo(h.counts, i) <= want < SumTo(h.counts, BUCKETS)
    ensures i <= b < BUCKETS && SumTo(h.counts, b) <= want < SumTo(h.counts, b + 1)
    ensures QuantileFrom(h, want, i, SumTo(h.counts, i)) == if b < LAST then Edges()[b] else h.max
    decreases BUCKETS - i
  {
    if want < SumTo(h.counts, i + 1) {
      b := i;
    } else {
      b := QuantileBucket(h, want, i + 1);
    }
  }

  /** b's lower neighbour, below which no sample of bucket b lies. */
  function EdgeBefore(r: int): Option<int> {
    var b := Bucket(r);
    if b == 0 then None else Some(Edges()[b - 1])
  }

  /** The estimate, for any samples: more than `want` of them are at most the result, and no
      more than `want` are at most the edge before it. So the sample with that rank lies in
      the result's own bucket. */
  lemma QuantileIsTight(samples: seq<int>, num: nat, den: nat)
    requires den > 0 && |samples| * num / den < |samples|
    ensures var want := |samples| * num / den;
            var r := Quantile(HistOf(samples), num, den);
            && want < AtMost(samples, r)
            && (EdgeBefore(r).Some? ==> AtMost(samples, EdgeBefore(r).value) <= want)
  {
    hide *;
    RankIsTight(samples, |samples| * num / den);
    QuantileIsRank(samples, num, den);
  }

  lemma QuantileIsRank(samples: seq<int>, num: nat, den: nat)
    requires den > 0 && samples != []
    ensures Quantile(HistOf(samples), num, den) == QuantileFrom(HistOf(samples), |samples| * num / den, 0, 0)
  {
    hide HistOf, QuantileFrom;
    MaxNonNegative(samples);
  }

  lemma RankIsTight(samples: seq<int>, want: nat)
    requires want < |samples|
    ensures var r := QuantileFrom(HistOf(samples), want, 0, 0);
            && want < AtMost(samples, r)
            && (EdgeBefore(r).Some? ==> AtMost(samples, EdgeBefore(r).value) <= want)
            && r == if Bucket(r) < LAST then Edges()[Bucket(r)] else HistOf(samples).max
  {
    hide HistOf, QuantileFrom, Edges, AtMost;
    var h := HistOf(samples);
    BucketsCount(samples, 0);
    assert SumTo(h.counts, 0) == 0;
    var b := QuantileBucket(h, want, 0);
    var r := QuantileFrom(h, want, 0, 0);
    if b > 0 { BucketsCount(samples, b - 1); }
    if b < LAST {
      BucketsCount(samples, b);
    } else {
      assert forall i :: 0 <= i < |samples| ==> samples[i] <= r by { MaxNonNegative(samples); }
      AllAtMost(samples, r);
      if r <= Edges()[LAST - 1] { AtMostMonotone(samples, r, Edges()[LAST - 1]); }
    }
    assert Bucket(r) == b;
  }

  /** How far off it is: it is never below the sample of that rank, and above it only within the first
      tenth of a millisecond or by a factor of at most two and a half; past one second it is the
      largest sample. */
  lemma QuantileError(samples: seq<int>, num: nat, den: nat, x: int)
    requires den > 0 && |samples| * num / den < |samples|
    requires var want := |samples| * num / den; Below(samples, x) <= want < AtMost(samples, x)
    ensures var r := Quantile(HistOf(samples), num, den);
            && x <= r
            && (r <= 100_000 || 2 * r <= 5 * x || (x > 1_000_000_000 && IsTop(samples, r)))
  {
    hide HistOf, Quantile, AtMost, Below, IsTop;
    QuantileBoundsRankedSample(samples, num, den, x);
    QuantileIsEdge(samples, num, den);
    HistIs(samples);
    Limits();
  }

  lemma QuantileIsEdge(samples: seq<int>, num: nat, den: nat)
    requires den > 0 && |samples| * num / den < |samples|
    ensures var r := Quantile(HistOf(samples), num, den); var b := Bucket(r);
            r == if b < LAST then Edges()[b] else HistOf(samples).max
  {
    hide *;
    RankIsTight(samples, |samples| * num / den);
    QuantileIsRank(samples, num, den);
  }

  /** Asked for a rank past the last sample it gives the largest one, and nothing for no samples. */
  lemma TopQuantile(samples: seq<int>, num: nat, den: nat)
    requires den > 0 && |samples| * num / den >= |samples|
    ensures IsTop(samples, Quantile(HistOf(samples), num, den))
  {
    hide HistOf, QuantileFrom, Edges;
    HistIs(samples);
    BucketsCount(samples, 0);
    NotPassed(HistOf(samples), |samples| * num / den, 0);
    assert SumTo(HistOf(samples).counts, 0) == 0;
  }

  lemma {:induction false} NotPassed(h: Hist, want: nat, i: nat)
    requires HistOk(h) && i <= BUCKETS && want >= SumTo(h.counts, BUCKETS)
    ensures QuantileFrom(h, want, i, SumTo(h.counts, i)) == h.max
    decreases BUCKETS - i
  {
    if i < BUCKETS {
      SumToGrows(h.counts, i + 1);
      NotPassed(h, want, i + 1);
    }
  }

  lemma {:induction false} SumToGrows(counts: seq<nat>, i: nat)
    requires i <= |counts|
    ensures SumTo(counts, i) <= SumTo(counts, |counts|)
    decreases |counts| - i
  {
    if i < |counts| { SumToGrows(counts, i + 1); }
  }

  lemma {:induction false} AllAtMost(samples: seq<int>, x: int)
    requires forall i :: 0 <= i < |samples| ==> samples[i] <= x
    ensures AtMost(samples, x) == |samples|
  {
    if samples != [] { AllAtMost(samples[..|samples| - 1], x); }
  }

  lemma {:induction false} AtMostMonotone(samples: seq<int>, x: int, y: int)
    requires x <= y
    ensures AtMost(samples, x) <= AtMost(samples, y)
  {
    if samples != [] { AtMostMonotone(samples[..|samples| - 1], x, y); }
  }

  lemma {:induction false} BelowAtMost(samples: seq<int>, x: int, y: int)
    requires x < y
    ensures AtMost(samples, x) <= Below(samples, y)
  {
    if samples != [] { BelowAtMost(samples[..|samples| - 1], x, y); }
  }

  /** In other words: the result is never below the sample of that rank, and in its bucket. */
  lemma QuantileBoundsRankedSample(samples: seq<int>, num: nat, den: nat, x: int)
    requires den > 0 && |samples| * num / den < |samples|
    requires var want := |samples| * num / den; Below(samples, x) <= want < AtMost(samples, x)
    ensures x <= Quantile(HistOf(samples), num, den)
    ensures Bucket(x) == Bucket(Quantile(HistOf(samples), num, den))
  {
    hide HistOf, Quantile, Edges, AtMost, Below, BucketFrom;
    QuantileIsTight(samples, num, den);
    var want, r := |samples| * num / den, Quantile(HistOf(samples), num, den);
    if r < x { BelowAtMost(samples, r, x); }
    var b := EdgeBefore(r);
    if b.Some? && x <= b.value { AtMostMonotone(samples, x, b.value); }
  }

  /** The histogram object: counters updated in place. */
  class PerfHist {
    const counts: array<nat>
    var n: nat
    var sum: int
    var max: int

    ghost predicate Valid()
      reads this
    {
      counts.Length == BUCKETS
    }

    ghost function View(): Hist
      requires Valid()
      reads this, counts
    {
      Hist(counts[..], n, sum, max)
    }

    constructor ()
      ensures Valid() && fresh(counts) && View() == EMPTY
    {
      counts := new nat[BUCKETS](_ => 0);
      n, sum, max := 0, 0, 0;
    }

    method Add(d: int)
      requires Valid()
      modifies this, counts
      ensures Valid() && View() == Added(old(View()), d)
    {
      n := n + 1;
      sum := sum + d;
      if d > max {
        max := d;
      }
      var i := BucketOf(d);
      hide Bucket;
      counts[i] := counts[i] + 1;
    }

    /** The loop that finds the bucket. */
    method BucketOf(d: int) returns (i: nat)
      ensures i == Bucket(d)
    {
      hide Edges;
      var edges := Edges();
      i := 0;
      while i < |edges|
        invariant i <= |edges| && Bucket(d) == BucketFrom(d, i)
      {
        if d <= edges[i] {
          return;
        }
        i := i + 1;
      }
    }

    method Merge(o: PerfHist)
      requires Valid() && o.Valid() && o != this && o.counts != counts
      modifies this, counts
      ensures Valid() && View() == Merged(old(View()), o.View())
    {
      n := n + o.n;
      sum := sum + o.sum;
      if o.max > max {
        max := o.max;
      }
      var i := 0;
      while i < counts.Length
        invariant i <= counts.Length
        invariant forall k :: 0 <= k < i ==> counts[k] == old(counts[k]) + o.counts[k]
        invariant forall k :: i <= k < counts.Length ==> counts[k] == old(counts[k])
        invariant n == old(n) + o.n && sum == old(sum) + o.sum
        invariant max == if o.max > old(max) then o.max else old(max)
      {
        counts[i] := counts[i] + o.counts[i];
        i := i + 1;
      }
    }

    method QuantileOf(num: nat, den: nat) returns (r: int)
      requires Valid() && den > 0
      ensures r == Quantile(View(), num, den)
    {
      hide Edges;
      if n == 0 {
        return 0;
      }
      var edges := Edges();
      var want := n * num / den;
      var seen: nat, i := 0, 0;
      while i < counts.Length
        invariant i <= counts.Length
        invariant QuantileFrom(View(), want, i, seen) == QuantileFrom(View(), want, 0, 0)
      {
        seen := seen + counts[i];
        if seen > want {
          return if i == |edges| then max else edges[i];
        }
        i := i + 1;
      }
      return max;
    }
  }

  // ------------------------------------------------------------- windows

  const CATS: nat := 8

  /** A recorded duration, with its category and the time of the record. */
  datatype Sample = Sample(cat: nat, d: int, at: int)

  /** One slice of the session; log is the history of what was recorded in it, gauge the
      number of its gauge sample and seen the history of those taken while it was open. */
  datatype Window = Window(
    start: int, end: int, hists: seq<Hist>, gauge: Option<nat>, log: seq<Sample>, seen: seq<nat>)

  datatype Metrics = Metrics(
    start: int, windowDur: int, windows: seq<Window>, cur: Window, total: seq<Hist>,
    lastGauge: Option<nat>, merges: nat, log: seq<Sample>)

  const MAX_WINDOWS: nat := 24

  predicate HistsOk(hs: seq<Hist>) {
    |hs| == CATS && forall c :: 0 <= c < CATS ==> HistOk(hs[c])
  }

  function NoHists(): (hs: seq<Hist>)
    ensures HistsOk(hs)
  {
    seq(CATS, _ => EMPTY)
  }

  function Filed(hs: seq<Hist>, s: Sample): (r: seq<Hist>)
    requires HistsOk(hs) && s.cat < CATS
    ensures HistsOk(r)
  {
    hs[s.cat := Added(hs[s.cat], s.d)]
  }

  function MergedAll(a: seq<Hist>, b: seq<Hist>): (r: seq<Hist>)
    requires HistsOk(a) && HistsOk(b)
    ensures HistsOk(r)
  {
    seq(CATS, c requires 0 <= c < CATS => Merged(a[c], b[c]))
  }

  /** The first window takes in the one after it; the later gauge is kept if there is one. */
  function Joined(a: Window, b: Window): Window
    requires HistsOk(a.hists) && HistsOk(b.hists)
  {
    Window(a.start, b.end, MergedAll(a.hists, b.hists), if b.gauge.Some? then b.gauge else a.gauge,
           a.log + b.log, a.seen + b.seen)
  }

  predicate AllHistsOk(ws: seq<Window>) {
    forall i :: 0 <= i < |ws| ==> HistsOk(ws[i].hists)
  }

  function Paired(ws: seq<Window>): (r: seq<Window>)
    requires AllHistsOk(ws)
    ensures AllHistsOk(r) && |r| == (|ws| + 1) / 2
    decreases |ws|
  {
    if |ws| <= 1 then ws else [Joined(ws[0], ws[1])] + Paired(ws[2..])
  }

  lemma Shift(done: seq<Window>, w: Window, rest: seq<Window>)
    ensures done + ([w] + rest) == (done + [w]) + rest
  {
  }

  lemma PairedAt(ws: seq<Window>, i: nat)
    requires AllHistsOk(ws) && i < |ws|
    ensures if i + 1 < |ws| then Paired(ws[i..]) == [Joined(ws[i], ws[i + 1])] + Paired(ws[i + 2..])
            else Paired(ws[i..]) == [ws[i]] + Paired(ws[i + 1..])
  {
  }

  predicate Shaped(p: Metrics) {
    AllHistsOk(p.windows) && HistsOk(p.cur.hists) && HistsOk(p.total)
  }

  function Compacted(p: Metrics): Metrics
    requires Shaped(p)
  {
    p.(windows := Paired(p.windows), windowDur := p.windowDur * 2, merges := p.merges + 1)
  }

  function RolledOver(p: Metrics, now: int): (r: Metrics)
    requires Shaped(p)
    ensures Shaped(r)
  {
    if now < p.cur.end then p
    else
      var q := p.(windows := p.windows + [p.cur.(end := now)]);
      var r := if |q.windows| >= MAX_WINDOWS then Compacted(q) else q;
      r.(cur := Window(now, now + r.windowDur, NoHists(), r.lastGauge, [], []))
  }

  lemma {:induction false} PairedEnd(ws: seq<Window>)
    requires AllHistsOk(ws) && ws != []
    ensures Paired(ws) != [] && Paired(ws)[|Paired(ws)| - 1].end == ws[|ws| - 1].end
    decreases |ws|
  {
    hide MergedAll, HistsOk;
    if |ws| > 2 {
      PairedEnd(ws[2..]);
    }
  }

  /** A window whose time was up is closed when the next record comes: it ends at its due time if and
      only if that record comes just then. */
  lemma ClosesOnTimeIff(p: Metrics, now: int)
    requires Shaped(p) && p.cur.end <= now
    ensures var ws := RolledOver(p, now).windows;
      ws != [] && (ws[|ws| - 1].end == p.cur.end <==> now == p.cur.end)
  {
    PairedEnd(p.windows + [p.cur.(end := now)]);
    hide Paired, HistsOk;
  }

  function Recorded(p: Metrics, s: Sample): (r: Metrics)
    requires Shaped(p) && s.cat < CATS
    ensures Shaped(r)
  {
    var q := RolledOver(p, s.at);
    q.(cur := q.cur.(hists := Filed(q.cur.hists, s), log := q.cur.log + [s]),
       total := Filed(q.total, s), log := q.log + [s])
  }

  function Gauged(p: Metrics, g: nat): Metrics {
    p.(lastGauge := Some(g), cur := p.cur.(gauge := Some(g), seen := p.cur.seen + [g]))
  }

  function Fresh(now: int, dur: int): (p: Metrics)
    ensures Shaped(p)
  {
    Metrics(now, dur, [], Window(now, now + dur, NoHists(), None, [], []), NoHists(), None, 0, [])
  }

  /** The durations of one category. */
  function OfCat(log: seq<Sample>, c: nat): seq<int> {
    if log == [] then [] else
      var n := |log| - 1;
      OfCat(log[..n], c) + if log[n].cat == c then [log[n].d] else []
  }

  function Logs(ws: seq<Window>): seq<Sample> {
    if ws == [] then [] else ws[0].log + Logs(ws[1..])
  }

  /** The histograms are those of the log. */
  ghost predicate Counts(hs: seq<Hist>, log: seq<Sample>) {
    HistsOk(hs) && forall c :: 0 <= c < CATS ==> hs[c] == HistOf(OfCat(log, c))
  }

  lemma {:induction false} OfCatConcat(a: seq<Sample>, b: seq<Sample>, c: nat)
    ensures OfCat(a + b, c) == OfCat(a, c) + OfCat(b, c)
    decreases |b|
  {
    if b == [] {
      assert a + b == a;
    } else {
      assert (a + b)[..|a + b| - 1] == a + b[..|b| - 1];
      OfCatConcat(a, b[..|b| - 1], c);
    }
  }

  lemma HistOfSnoc(samples: seq<int>, d: int)
    ensures HistOf(samples + [d]) == Added(HistOf(samples), d)
  {
    assert (samples + [d])[..|samples|] == samples;
  }

  lemma OfCatSnoc(log: seq<Sample>, s: Sample, c: nat)
    ensures OfCat(log + [s], c) == OfCat(log, c) + if s.cat == c then [s.d] else []
  {
    assert (log + [s])[..|log|] == log;
  }

  lemma FiledCounts(hs: seq<Hist>, log: seq<Sample>, s: Sample)
    requires Counts(hs, log) && s.cat < CATS
    ensures Counts(Filed(hs, s), log + [s])
  {
    hide HistOf, Added, OfCat;
    forall c | 0 <= c < CATS ensures Filed(hs, s)[c] == HistOf(OfCat(log + [s], c)) {
      OfCatSnoc(log, s, c);
      if c == s.cat {
        HistOfSnoc(OfCat(log, c), s.d);
      } else {
        assert OfCat(log, c) + [] == OfCat(log, c);
      }
    }
  }

  lemma MergedCounts(a: seq<Hist>, x: seq<Sample>, b: seq<Hist>, y: seq<Sample>)
    requires Counts(a, x) && Counts(b, y)
    ensures Counts(MergedAll(a, b), x + y)
  {
    hide HistOf, Merged, OfCat;
    forall c | 0 <= c < CATS ensures MergedAll(a, b)[c] == HistOf(OfCat(x + y, c)) {
      MergeIsConcatenation(OfCat(x, c), OfCat(y, c));
      OfCatConcat(x, y, c);
    }
  }

  ghost predicate WindowsCount(ws: seq<Window>) {
    forall i :: 0 <= i < |ws| ==> Counts(ws[i].hists, ws[i].log)
  }

  /** The windows follow each other from start to end, each at least dur long. */
  predicate Tiles(ws: seq<Window>, start: int, end: int, dur: int) {
    if ws == [] then start == end
    else ws[0].start == start && ws[0].end - ws[0].start >= dur && Tiles(ws[1..], ws[0].end, end, dur)
  }

  lemma {:induction false} TilesAppend(ws: seq<Window>, w: Window, start: int, end: int, dur: int)
    requires Tiles(ws, start, end, dur) && w.start == end && w.end - w.start >= dur
    ensures Tiles(ws + [w], start, w.end, dur)
    decreases |ws|
  {
    if ws == [] {
      assert (ws + [w])[1..] == [];
    } else {
      assert (ws + [w])[1..] == ws[1..] + [w];
      TilesAppend(ws[1..], w, ws[0].end, end, dur);
    }
  }

  /** Pairwise compaction of an even number of windows keeps the tiling, with windows twice as
      long, and every sample, in order. */
  lemma PairedKeeps(ws: seq<Window>, start: int, end: int, dur: int)
    requires WindowsCount(ws) && AllHistsOk(ws) && Tiles(ws, start, end, dur) && |ws| % 2 == 0
    ensures WindowsCount(Paired(ws)) && Logs(Paired(ws)) == Logs(ws)
    ensures Tiles(Paired(ws), start, end, dur * 2)
  {
    hide *;
    PairedCounts(ws);
    PairedLogs(ws);
    PairedTiles(ws, start, end, dur);
  }

  lemma {:induction false} PairedCounts(ws: seq<Window>)
    requires WindowsCount(ws) && AllHistsOk(ws)
    ensures WindowsCount(Paired(ws))
    decreases |ws|
  {
    hide HistsOk, Counts, MergedAll;
    if |ws| > 1 {
      RestShaped(ws);
      PairedCounts(ws[2..]);
      MergedCounts(ws[0].hists, ws[0].log, ws[1].hists, ws[1].log);
    }
  }

  lemma {:induction false} PairedLogs(ws: seq<Window>)
    requires AllHistsOk(ws)
    ensures Logs(Paired(ws)) == Logs(ws)
    decreases |ws|
  {
    hide HistsOk, MergedAll, AllHistsOk;
    if |ws| > 1 {
      var rest := ws[2..];
      RestShaped(ws);
      assert ws[1..][1..] == rest && ws[1..][0] == ws[1];
      PairedLogs(rest);
      assert Paired(ws)[1..] == Paired(rest) && Paired(ws)[0] == Joined(ws[0], ws[1]);
      Regroup(ws[0].log, ws[1].log, Logs(rest));
    }
  }

  lemma Regroup(a: seq<Sample>, b: seq<Sample>, c: seq<Sample>)
    ensures a + (b + c) == (a + b) + c
  {
  }

  lemma {:induction false} PairedTiles(ws: seq<Window>, start: int, end: int, dur: int)
    requires AllHistsOk(ws) && Tiles(ws, start, end, dur) && |ws| % 2 == 0
    ensures Tiles(Paired(ws), start, end, dur * 2)
    decreases |ws|
  {
    hide HistsOk, MergedAll, AllHistsOk;
    if |ws| > 1 {
      var rest := ws[2..];
      RestShaped(ws);
      assert ws[1..][1..] == rest && ws[1..][0] == ws[1];
      PairedTiles(rest, ws[1].end, end, dur);
      assert Paired(ws)[1..] == Paired(rest);
    }
  }

  lemma RestShaped(ws: seq<Window>)
    requires AllHistsOk(ws) && |ws| > 1
    ensures AllHistsOk(ws[2..]) && HistsOk(ws[0].hists) && HistsOk(ws[1].hists)
  {
  }

  lemma {:induction false} LogsAppend(ws: seq<Window>, w: Window)
    ensures Logs(ws + [w]) == Logs(ws) + w.log
    decreases |ws|
  {
    if ws == [] {
      assert (ws + [w])[1..] == [];
    } else {
      assert (ws + [w])[1..] == ws[1..] + [w];
      LogsAppend(ws[1..], w);
    }
  }

  function Pow2(n: nat): (r: nat)
    ensures r > 0
  {
    if n == 0 then 1 else 2 * Pow2(n - 1)
  }

  /** After every call: no sample is lost or counted twice, in any window, and the totals are
      the lifetime histograms; the windows tile the session up to the open one; there are few
      of them, and each is at least as long as the resolution that compaction has come to. */
  ghost predicate Inv(p: Metrics, base: int) {
    && Shaped(p)
    && WindowsCount(p.windows) && Counts(p.cur.hists, p.cur.log) && Counts(p.total, p.log)
    && Logs(p.windows) + p.cur.log == p.log
    && p.windowDur == base * Pow2(p.merges)
    && Tiles(p.windows, p.start, p.cur.start, p.windowDur)
    && p.cur.end == p.cur.start + p.windowDur
    && |p.windows| < MAX_WINDOWS
    && (p.merges > 0 ==> |p.windows| >= MAX_WINDOWS / 2)
  }

  lemma FreshInv(now: int, dur: int)
    ensures Inv(Fresh(now, dur), dur)
  {
  }

  /** Closing the open window, before any compaction. */
  lemma CloseKeeps(p: Metrics, base: int, now: int)
    requires Inv(p, base) && now >= p.cur.end
    ensures var ws := p.windows + [p.cur.(end := now)];
            WindowsCount(ws) && AllHistsOk(ws) && Logs(ws) == p.log && Tiles(ws, p.start, now, p.windowDur)
  {
    LogsAppend(p.windows, p.cur.(end := now));
    TilesAppend(p.windows, p.cur.(end := now), p.start, p.cur.start, p.windowDur);
  }

  lemma RolloverKeeps(p: Metrics, base: int, now: int)
    requires Inv(p, base)
    ensures Inv(RolledOver(p, now), base)
  {
    hide WindowsCount, Logs, Tiles, Paired, Counts;
    if now >= p.cur.end {
      var ws := p.windows + [p.cur.(end := now)];
      CloseKeeps(p, base, now);
      NoSamples();
      if |ws| >= MAX_WINDOWS {
        PairedKeeps(ws, p.start, now, p.windowDur);
        assert base * Pow2(p.merges + 1) == base * Pow2(p.merges) * 2;
      }
      var q := RolledOver(p, now);
      assert Logs(q.windows) + [] == Logs(q.windows);
    }
  }

  lemma NoSamples()
    ensures Counts(NoHists(), [])
  {
  }

  lemma RecordKeeps(p: Metrics, base: int, s: Sample)
    requires Inv(p, base) && s.cat < CATS
    ensures Inv(Recorded(p, s), base)
  {
    hide WindowsCount, Logs, Tiles, Paired, Counts, RolledOver, Filed;
    var q := RolledOver(p, s.at);
    RolloverKeeps(p, base, s.at);
    FiledCounts(q.cur.hists, q.cur.log, s);
    FiledCounts(q.total, q.log, s);
    assert Logs(q.windows) + (q.cur.log + [s]) == Logs(q.windows) + q.cur.log + [s];
  }

  lemma GaugeKeeps(p: Metrics, base: int, g: nat)
    requires Inv(p, base)
    ensures Inv(Gauged(p, g), base)
  {
  }

  datatype Event = Record(s: Sample) | Gauge(g: nat)

  predicate EventOk(e: Event) {
    e.Record? ==> e.s.cat < CATS
  }

  function After(start: int, base: int, events: seq<Event>): (p: Metrics)
    requires forall i :: 0 <= i < |events| ==> EventOk(events[i])
    ensures Shaped(p)
  {
    if events == [] then Fresh(start, base)
    else
      var p, e := After(start, base, events[..|events| - 1]), events[|events| - 1];
      assert EventOk(e);
      match e
      case Record(s) => Recorded(p, s)
      case Gauge(g) => Gauged(p, g)
  }

  lemma {:induction false} SessionKeepsInv(start: int, base: int, events: seq<Event>)
    requires forall i :: 0 <= i < |events| ==> EventOk(events[i])
    ensures Inv(After(start, base, events), base)
  {
    if events == [] {
      FreshInv(start, base);
    } else {
      var p, e := After(start, base, events[..|events| - 1]), events[|events| - 1];
      SessionKeepsInv(start, base, events[..|events| - 1]);
      match e {
        case Record(s) => RecordKeeps(p, base, s);
        case Gauge(g) => GaugeKeeps(p, base, g);
      }
    }
  }

  /** The time of the last record, and that the clock never goes back. */
  function Clock(start: int, events: seq<Event>): int {
    if events == [] then start
    else
      var e := events[|events| - 1];
      if e.Record? then e.s.at else Clock(start, events[..|events| - 1])
  }

  predicate Forward(start: int, events: seq<Event>) {
    events == [] ||
    var init, e := events[..|events| - 1], events[|events| - 1];
    Forward(start, init) && (e.Record? ==> e.s.at >= Clock(start, init))
  }

  /** Every sample of the window was recorded between its start and its end. */
  predicate InTime(w: Window) {
    forall i :: 0 <= i < |w.log| ==> w.start <= w.log[i].at < w.end
  }

  predicate AllInTime(ws: seq<Window>) {
    forall i :: 0 <= i < |ws| ==> InTime(ws[i])
  }

  lemma JoinedInTime(a: Window, b: Window)
    requires HistsOk(a.hists) && HistsOk(b.hists) && InTime(a) && InTime(b)
    requires a.start <= a.end == b.start <= b.end
    ensures InTime(Joined(a, b))
  {
    hide MergedAll, HistsOk;
  }

  lemma {:induction false} PairedInTime(ws: seq<Window>, start: int, end: int, dur: int)
    requires AllHistsOk(ws) && Tiles(ws, start, end, dur) && dur >= 0 && AllInTime(ws)
    ensures AllInTime(Paired(ws))
    decreases |ws|
  {
    hide Joined, HistsOk, InTime;
    if |ws| > 1 {
      var rest := ws[2..];
      assert ws[1..][1..] == rest && ws[1..][0] == ws[1];
      JoinedInTime(ws[0], ws[1]);
      PairedInTime(rest, ws[1].end, end, dur);
    }
  }

  lemma RecordInTime(p: Metrics, base: int, s: Sample)
    requires Inv(p, base) && base > 0 && s.cat < CATS
    requires AllInTime(p.windows) && InTime(p.cur) && s.at >= p.cur.start
    ensures var q := Recorded(p, s); AllInTime(q.windows) && InTime(q.cur) && q.cur.start <= s.at
  {
    hide WindowsCount, Logs, Tiles, Paired, Counts, Filed, HistsOk, AllHistsOk;
    Positive(base, Pow2(p.merges));
    if s.at >= p.cur.end {
      var ws := p.windows + [p.cur.(end := s.at)];
      CloseKeeps(p, base, s.at);
      if |ws| >= MAX_WINDOWS { PairedInTime(ws, p.start, s.at, p.windowDur); }
    }
  }

  /** If the clock never goes back, every window holds just the samples recorded between its start and
      its end: with the tiling, and with the log kept in order, the trend is the truth. */
  lemma {:induction false} SamplesInTheirWindow(start: int, base: int, events: seq<Event>)
    requires base > 0 && (forall i :: 0 <= i < |events| ==> EventOk(events[i])) && Forward(start, events)
    ensures var p := After(start, base, events);
            AllInTime(p.windows) && InTime(p.cur) && p.cur.start <= Clock(start, events)
  {
    hide Inv, Recorded, AllInTime, InTime;
    if events == [] {
      NothingYet(start, base);
    } else {
      var init, e := events[..|events| - 1], events[|events| - 1];
      var p := After(start, base, init);
      SamplesInTheirWindow(start, base, init);
      SessionKeepsInv(start, base, init);
      match e {
        case Record(s) => RecordInTime(p, base, s);
        case Gauge(g) => GaugeInTime(p, g);
      }
    }
  }

  lemma NothingYet(start: int, base: int)
    ensures var p := Fresh(start, base); AllInTime(p.windows) && InTime(p.cur)
  {
  }

  lemma GaugeInTime(p: Metrics, g: nat)
    requires InTime(p.cur)
    ensures InTime(Gauged(p, g).cur)
  {
  }

  /** What was recorded, and the gauges taken, in order. */
  function Records(events: seq<Event>): seq<Sample> {
    if events == [] then [] else
      var e := events[|events| - 1];
      Records(events[..|events| - 1]) + if e.Record? then [e.s] else []
  }

  /** Every record is logged once, in the order of the calls. */
  lemma {:induction false} EveryRecordIsLogged(start: int, base: int, events: seq<Event>)
    requires forall i :: 0 <= i < |events| ==> EventOk(events[i])
    ensures After(start, base, events).log == Records(events)
  {
    hide HistsOk, AllHistsOk;
    if events != [] {
      EveryRecordIsLogged(start, base, events[..|events| - 1]);
    }
  }

  /** The last of the gauges, or the one from before. */
  function Latest(gauges: seq<nat>, before: Option<nat>): Option<nat> {
    if gauges == [] then before else Some(gauges[|gauges| - 1])
  }

  /** Each window shows the last gauge taken by its end. */
  predicate GaugesFollow(ws: seq<Window>, before: Option<nat>, after: Option<nat>) {
    if ws == [] then before == after
    else ws[0].gauge == Latest(ws[0].seen, before) && GaugesFollow(ws[1..], ws[0].gauge, after)
  }

  lemma {:induction false} GaugesAppend(ws: seq<Window>, w: Window, before: Option<nat>, mid: Option<nat>)
    requires GaugesFollow(ws, before, mid) && w.gauge == Latest(w.seen, mid)
    ensures GaugesFollow(ws + [w], before, w.gauge)
    decreases |ws|
  {
    if ws == [] {
      assert (ws + [w])[1..] == [];
    } else {
      assert (ws + [w])[1..] == ws[1..] + [w];
      GaugesAppend(ws[1..], w, ws[0].gauge, mid);
    }
  }

  lemma {:induction false} PairedGauges(ws: seq<Window>, before: Option<nat>, after: Option<nat>)
    requires AllHistsOk(ws) && GaugesFollow(ws, before, after)
    ensures GaugesFollow(Paired(ws), before, after)
    decreases |ws|
  {
    hide MergedAll, HistsOk, AllHistsOk, Latest;
    if |ws| > 1 {
      var rest := ws[2..];
      RestShaped(ws);
      assert ws[1..][1..] == rest && ws[1..][0] == ws[1];
      PairedGauges(rest, ws[1].gauge, after);
      JoinedGauge(ws[0], ws[1], before);
      assert Paired(ws)[1..] == Paired(rest) && Paired(ws)[0] == Joined(ws[0], ws[1]);
    }
  }

  lemma JoinedGauge(a: Window, b: Window, before: Option<nat>)
    requires HistsOk(a.hists) && HistsOk(b.hists)
    requires a.gauge == Latest(a.seen, before) && b.gauge == Latest(b.seen, a.gauge)
    ensures Joined(a, b).gauge == b.gauge == Latest(Joined(a, b).seen, before)
  {
    hide MergedAll, HistsOk;
  }

  ghost predicate GaugesOk(p: Metrics) {
    exists before ::
      GaugesFollow(p.windows, None, before) && p.cur.gauge == Latest(p.cur.seen, before) == p.lastGauge
  }

  lemma RolloverGauges(p: Metrics, now: int)
    requires Shaped(p) && GaugesOk(p)
    ensures GaugesOk(RolledOver(p, now))
  {
    hide GaugesFollow, Paired, HistsOk;
    if now >= p.cur.end {
      var before :|
        GaugesFollow(p.windows, None, before) && p.cur.gauge == Latest(p.cur.seen, before) == p.lastGauge;
      var w := p.cur.(end := now);
      GaugesAppend(p.windows, w, None, before);
      PairedGauges(p.windows + [w], None, w.gauge);
    }
  }

  function Gauges(events: seq<Event>): seq<nat> {
    if events == [] then [] else
      var e := events[|events| - 1];
      Gauges(events[..|events| - 1]) + if e.Gauge? then [e.g] else []
  }

  /** After any calls each window shows the last gauge taken by its end, through every compaction, and
      the open one the last of all. */
  lemma {:induction false} WindowsShowTheirGauge(start: int, base: int, events: seq<Event>)
    requires forall i :: 0 <= i < |events| ==> EventOk(events[i])
    ensures GaugesOk(After(start, base, events))
    ensures After(start, base, events).lastGauge == Latest(Gauges(events), None)
  {
    hide HistsOk, GaugesOk, RolledOver, Filed, Latest;
    if events == [] {
      NoGauge(start, base);
    } else {
      var init, e := events[..|events| - 1], events[|events| - 1];
      var p := After(start, base, init);
      WindowsShowTheirGauge(start, base, init);
      LatestSnoc(Gauges(init), e);
      match e {
        case Record(s) => RecordGauges(p, s);
        case Gauge(g) => GaugeGauges(p, g);
      }
    }
  }

  lemma LatestSnoc(gauges: seq<nat>, e: Event)
    ensures e.Record? ==> Latest(gauges + [], None) == Latest(gauges, None)
    ensures e.Gauge? ==> Latest(gauges + [e.g], None) == Some(e.g)
  {
    assert gauges + [] == gauges;
  }

  lemma NoGauge(start: int, base: int)
    ensures GaugesOk(Fresh(start, base)) && Fresh(start, base).lastGauge == Latest([], None)
  {
    assert GaugesFollow([], None, None);
  }

  lemma RecordGauges(p: Metrics, s: Sample)
    requires Shaped(p) && s.cat < CATS && GaugesOk(p)
    ensures GaugesOk(Recorded(p, s)) && Recorded(p, s).lastGauge == p.lastGauge
  {
    hide GaugesFollow, HistsOk, Filed;
    RolloverGauges(p, s.at);
  }

  lemma GaugeGauges(p: Metrics, g: nat)
    requires GaugesOk(p)
    ensures GaugesOk(Gauged(p, g))
  {
    hide GaugesFollow;
  }

  function MergeWindows(ws: seq<Window>, last: seq<Hist>): (r: seq<Hist>)
    requires AllHistsOk(ws) && HistsOk(last)
    ensures HistsOk(r)
  {
    if ws == [] then last else MergedAll(ws[0].hists, MergeWindows(ws[1..], last))
  }

  lemma {:induction false} MergeWindowsCounts(ws: seq<Window>, last: seq<Hist>, log: seq<Sample>)
    requires AllHistsOk(ws) && WindowsCount(ws) && Counts(last, log)
    ensures Counts(MergeWindows(ws, last), Logs(ws) + log)
    decreases |ws|
  {
    if ws == [] {
      assert [] + log == log;
    } else {
      MergeWindowsCounts(ws[1..], last, log);
      MergedCounts(ws[0].hists, ws[0].log, MergeWindows(ws[1..], last), Logs(ws[1..]) + log);
      assert ws[0].log + (Logs(ws[1..]) + log) == Logs(ws) + log;
    }
  }

  lemma {:induction false} TilesSpan(ws: seq<Window>, start: int, end: int, dur: int)
    requires Tiles(ws, start, end, dur) && dur >= 0
    ensures end - start >= |ws| * dur
    decreases |ws|
  {
    if ws != [] {
      TilesSpan(ws[1..], ws[0].end, end, dur);
      assert |ws| * dur == dur + |ws[1..]| * dur;
    }
  }

  /** At any point of any session the table merges back to the lifetime histograms, so a
      quantile read off the merged windows is the lifetime quantile; and each halving of the
      resolution was paid for: twelve windows of it have passed. */
  lemma SessionIsCovered(start: int, base: int, events: seq<Event>)
    requires base > 0 && forall i :: 0 <= i < |events| ==> EventOk(events[i])
    ensures var p := After(start, base, events);
            && MergeWindows(p.windows, p.cur.hists) == p.total
            && Counts(p.total, p.log)
            && Tiles(p.windows, p.start, p.cur.start, base * Pow2(p.merges))
            && |p.windows| <= 23
            && (p.merges > 0 ==> 12 * (base * Pow2(p.merges)) <= p.cur.start - p.start)
  {
    hide Tiles, Logs, WindowsCount, MergeWindows, After, HistOf;
    SessionKeepsInv(start, base, events);
    var p := After(start, base, events);
    MergeWindowsCounts(p.windows, p.cur.hists, p.cur.log);
    SameCounts(MergeWindows(p.windows, p.cur.hists), p.total, p.log);
    Positive(base, Pow2(p.merges));
    TilesSpan(p.windows, p.start, p.cur.start, p.windowDur);
    if p.merges > 0 { AtLeastTwelve(|p.windows|, p.windowDur); }
  }

  lemma SameCounts(a: seq<Hist>, b: seq<Hist>, log: seq<Sample>)
    requires Counts(a, log) && Counts(b, log)
    ensures a == b
  {
  }

  lemma Positive(a: int, b: int)
    requires a > 0 && b > 0
    ensures a * b > 0
  {
  }

  lemma AtLeastTwelve(n: nat, dur: int)
    requires n >= 12 && dur >= 0
    ensures n * dur >= 12 * dur
  {
  }

  /** perfMetrics: the fields record and sample update in place. */
  class PerfMetrics {
    const start: int
    var windowDur: int
    var windows: seq<Window>
    var cur: Window
    var total: seq<Hist>
    var lastGauge: Option<nat>
    var merges: nat
    ghost var log: seq<Sample>

    ghost function View(): Metrics
      reads this
    {
      Metrics(start, windowDur, windows, cur, total, lastGauge, merges, log)
    }

    constructor (now: int, dur: int)
      ensures View() == Fresh(now, dur)
    {
      start, windowDur, windows, merges, lastGauge := now, dur, [], 0, None;
      cur, total, log := Window(now, now + dur, NoHists(), None, [], []), NoHists(), [];
    }

    method Record(cat: nat, d: int, now: int)
      requires Shaped(View()) && cat < CATS
      modifies this
      ensures View() == Recorded(old(View()), Sample(cat, d, now))
    {
      Rollover(now);
      var s := Sample(cat, d, now);
      cur := cur.(hists := Filed(cur.hists, s), log := cur.log + [s]);
      total := Filed(total, s);
      log := log + [s];
    }

    method Rollover(now: int)
      requires Shaped(View())
      modifies this
      ensures View() == RolledOver(old(View()), now)
    {
      if now < cur.end {
        return;
      }
      cur := cur.(end := now);
      windows := windows + [cur];
      if |windows| >= MAX_WINDOWS {
        Compact();
      }
      cur := Window(now, now + windowDur, NoHists(), lastGauge, [], []);
    }

    method Compact()
      requires Shaped(View())
      modifies this
      ensures View() == Compacted(old(View()))
    {
      var merged: seq<Window> := [];
      var i := 0;
      assert windows[0..] == windows && windows[|windows|..] == [];
      hide HistsOk;
      while i < |windows|
        invariant i <= |windows| && View() == old(View())
        invariant merged + Paired(windows[i..]) == Paired(windows)
      {
        PairedAt(windows, i);
        var w := windows[i];
        if i + 1 < |windows| {
          var next := windows[i + 1];
          w := Window(w.start, next.end, MergedAll(w.hists, next.hists),
                      if next.gauge.Some? then next.gauge else w.gauge, w.log + next.log, w.seen + next.seen);
          i := i + 2;
        } else {
          i := i + 1;
        }
        hide Paired, MergedAll, AllHistsOk;
        Shift(merged, w, Paired(windows[i..]));
        merged := merged + [w];
      }
      windows := merged;
      windowDur := windowDur * 2;
      merges := merges + 1;
    }

    method TakeGauge(g: nat)
      modifies this
      ensures View() == Gauged(old(View()), g)
    {
      lastGauge := Some(g);
      cur := cur.(gauge := Some(g), seen := cur.seen + [g]);
    }
  }
}
