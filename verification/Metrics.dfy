/** The bucketed health projection (internal/domain/metrics.go).  Times and durations are
    in nanoseconds, rates are exact rationals. */
module Metrics {
  import opened Text
  import opened Sorting

  /** `latency` is the latency_ms field, when the event data decodes. */
  datatype Event = Event(ts: int, kind: string, latency: Option<int>)

  datatype Window = Window(start: int, size: int, now: int)

  datatype Totals = Totals(delivered: nat, failed: nat, retried: nat)

  datatype Acc = Acc(delivered: nat, failed: nat, retried: nat, totalLatency: int, latencyCount: nat)

  datatype Bucket = Bucket(start: int, delivered: nat, failed: nat, retried: nat, successRate: real,
                           avgLatency: Option<int>)

  function Zero(): Acc { Acc(0, 0, 0, 0, 0) }

  /** Go's division and remainder truncate towards zero. */
  function TruncDiv(a: int, b: int): int
    requires b > 0
  {
    if a >= 0 then a / b else -((-a) / b)
  }

  function TruncMod(a: int, b: int): int
    requires b > 0
  {
    a - TruncDiv(a, b) * b
  }

  function NumBuckets(w: Window): (n: nat)
    requires w.size > 0
    ensures n >= 1
    ensures w.now > w.start ==> (n - 1) * w.size < w.now - w.start <= n * w.size
    ensures w.now <= w.start ==> n == 1
  {
    var d := w.now - w.start;
    var n := TruncDiv(d, w.size) + if TruncMod(d, w.size) > 0 then 1 else 0;
    DivBounds(d, w.size);
    if n <= 0 then 1 else n
  }

  lemma DivBounds(d: int, size: int)
    requires size > 0
    ensures d >= 0 ==> TruncDiv(d, size) * size <= d < TruncDiv(d, size) * size + size && TruncDiv(d, size) >= 0
    ensures d < 0 ==> TruncDiv(d, size) <= 0 && TruncMod(d, size) <= 0
  {
    if d < 0 {
      assert (-d) / size * size <= -d;
    }
  }

  predicate InWindow(w: Window, ts: int) { w.start <= ts <= w.now }

  function Index(w: Window, ts: int): (idx: nat)
    requires w.size > 0 && InWindow(w, ts)
    ensures idx < NumBuckets(w)
  {
    DivBounds(ts - w.start, w.size);
    var idx := TruncDiv(ts - w.start, w.size);
    if idx >= NumBuckets(w) then NumBuckets(w) - 1 else idx
  }

  /** Where the i-th interval starts. */
  function Edge(w: Window, i: int): int { w.start + i * w.size }

  /** The i-th interval, closed on the left; the last one also holds the instant `now`
      when the window is a whole number of buckets. */
  predicate Holds(w: Window, i: int, ts: int)
    requires w.size > 0
  {
    && 0 <= i < NumBuckets(w)
    && Edge(w, i) <= ts
    && (ts < Edge(w, i + 1) || (ts == w.now && i == NumBuckets(w) - 1))
  }

  lemma Scale(a: int, b: int, c: int)
    requires a <= b && c > 0
    ensures a * c <= b * c
  {
  }

  lemma EdgesInOrder(w: Window, i: int, j: int)
    requires w.size > 0 && i <= j
    ensures Edge(w, i) <= Edge(w, j)
  {
    Scale(i, j, w.size);
  }

  lemma EdgesAround(w: Window, ts: int)
    requires w.size > 0 && ts >= w.start
    ensures var q := TruncDiv(ts - w.start, w.size); q >= 0 && Edge(w, q) <= ts < Edge(w, q + 1)
  {
    DivBounds(ts - w.start, w.size);
    var q := TruncDiv(ts - w.start, w.size);
    assert (q + 1) * w.size == q * w.size + w.size;
  }

  lemma LastEdge(w: Window)
    requires w.size > 0 && w.now >= w.start
    ensures w.now <= Edge(w, NumBuckets(w)) && (w.now > w.start ==> Edge(w, NumBuckets(w) - 1) < w.now)
    ensures w.now < Edge(w, 1) || w.now > w.start
  {
  }

  /** Each instant of the window belongs to exactly one interval, and the computed index
      is that of the interval. */
  lemma IndexIffHolds(w: Window, i: int, ts: int)
    requires w.size > 0 && InWindow(w, ts)
    ensures Index(w, ts) == i <==> Holds(w, i, ts)
  {
    hide Edge, NumBuckets, TruncDiv;
    var n := NumBuckets(w);
    var q := TruncDiv(ts - w.start, w.size);
    EdgesAround(w, ts);
    LastEdge(w);
    if q >= n { EdgesInOrder(w, n, q); } else { EdgesInOrder(w, q + 1, n); }
    if i < n - 1 { EdgesInOrder(w, i + 1, n - 1); }
    EdgesInOrder(w, n - 1, n);
    if i < q { EdgesInOrder(w, i + 1, q); }
    if q < i { EdgesInOrder(w, q + 1, i); }
  }

  // ------------------------------------------------------------- the accumulators

  predicate HasLatency(e: Event) {
    e.kind == "delivery.completed" && e.latency.Some? && e.latency.value > 0
  }

  /** What one event adds. */
  function Bump(a: Acc, e: Event): Acc {
    if e.kind == "delivery.completed" then
      var a' := a.(delivered := a.delivered + 1);
      if HasLatency(e) then a'.(totalLatency := a.totalLatency + e.latency.value,
                                latencyCount := a.latencyCount + 1) else a'
    else if e.kind == "delivery.failed" then a.(failed := a.failed + 1)
    else if e.kind == "error.retried" then a.(retried := a.retried + 1)
    else a
  }

  /** The events that satisfy the predicate, accumulated in order. */
  function AccOf(events: seq<Event>, p: Event -> bool): Acc {
    if events == [] then Zero()
    else
      var e, before := events[|events| - 1], AccOf(events[..|events| - 1], p);
      if p(e) then Bump(before, e) else before
  }

  ghost function InBucket(w: Window, i: int): Event -> bool
    requires w.size > 0
  {
    (e: Event) => InWindow(w, e.ts) && Index(w, e.ts) == i
  }

  function Inside(w: Window): Event -> bool { (e: Event) => w.start <= e.ts <= w.now }

  function OfKind(k: string, p: Event -> bool): Event -> bool { (e: Event) => p(e) && e.kind == k }

  /** A completed delivery whose data carries a positive latency. */
  function WithLatency(p: Event -> bool): Event -> bool {
    (e: Event) => p(e) && e.kind == "delivery.completed" && e.latency.Some? && e.latency.value > 0
  }

  function SumLatency(events: seq<Event>): int {
    if events == [] then 0
    else (if HasLatency(events[0]) then events[0].latency.value else 0) + SumLatency(events[1..])
  }

  lemma {:induction false} SumLatencyAppend(a: seq<Event>, b: seq<Event>)
    ensures SumLatency(a + b) == SumLatency(a) + SumLatency(b)
  {
    if a == [] {
      assert a + b == b;
    } else {
      assert (a + b)[1..] == a[1..] + b;
      SumLatencyAppend(a[1..], b);
    }
  }

  /** An accumulator counts the selected events of each kind and sums their latencies. */
  ghost predicate Counts(a: Acc, events: seq<Event>, p: Event -> bool) {
    && a.delivered == |Select(events, OfKind("delivery.completed", p))|
    && a.failed == |Select(events, OfKind("delivery.failed", p))|
    && a.retried == |Select(events, OfKind("error.retried", p))|
    && a.latencyCount == |Select(events, WithLatency(p))|
    && a.totalLatency == SumLatency(Select(events, WithLatency(p)))
  }

  lemma SelectLast(events: seq<Event>, p: Event -> bool)
    requires events != []
    ensures var n := |events| - 1;
            Select(events, p) == Select(events[..n], p) + if p(events[n]) then [events[n]] else []
  {
    var n := |events| - 1;
    assert events == events[..n] + [events[n]];
    SelectConcat(events[..n], [events[n]], p);
  }

  lemma {:induction false} AccCounts(events: seq<Event>, p: Event -> bool)
    ensures Counts(AccOf(events, p), events, p)
  {
    hide Select;
    if events == [] {
      NothingSelected(p);
    } else {
      var n := |events| - 1;
      AccCounts(events[..n], p);
      SelectLast(events, OfKind("delivery.completed", p));
      SelectLast(events, OfKind("delivery.failed", p));
      SelectLast(events, OfKind("error.retried", p));
      SelectLast(events, WithLatency(p));
      SumLatencyAppend(Select(events[..n], WithLatency(p)), [events[n]]);
      assert SumLatency([events[n]]) == if HasLatency(events[n]) then events[n].latency.value else 0;
      hide SumLatency;
      assert Select(events[..n], WithLatency(p)) + [] == Select(events[..n], WithLatency(p));
    }
  }

  lemma NothingSelected(p: Event -> bool)
    ensures Counts(Zero(), [], p)
  {
  }

  // ------------------------------------------------------------------- conservation

  function Plus(a: Acc, b: Acc): Acc {
    Acc(a.delivered + b.delivered, a.failed + b.failed, a.retried + b.retried, a.totalLatency + b.totalLatency,
        a.latencyCount + b.latencyCount)
  }

  function SumAcc(accs: seq<Acc>): Acc {
    if accs == [] then Zero() else Plus(accs[0], SumAcc(accs[1..]))
  }

  ghost function Accs(w: Window, events: seq<Event>): seq<Acc>
    requires w.size > 0
  {
    seq(NumBuckets(w), i => AccOf(events, InBucket(w, i)))
  }

  lemma PlusZero(a: Acc)
    ensures Plus(Zero(), a) == a
  {
  }

  lemma PlusBump(a: Acc, b: Acc, e: Event)
    ensures Plus(Bump(a, e), b) == Bump(Plus(a, b), e) == Plus(a, Bump(b, e))
  {
  }

  lemma {:induction false} SumBump(accs: seq<Acc>, j: nat, e: Event)
    requires j < |accs|
    ensures SumAcc(accs[j := Bump(accs[j], e)]) == Bump(SumAcc(accs), e)
  {
    hide Plus, Bump;
    var bumped := accs[j := Bump(accs[j], e)];
    PlusBump(accs[0], SumAcc(accs[1..]), e);
    if j == 0 {
      assert bumped[1..] == accs[1..];
    } else {
      SumBump(accs[1..], j - 1, e);
      assert bumped[1..] == accs[1..][j - 1 := Bump(accs[j], e)];
    }
  }

  lemma {:induction false} SumOfEmpty(accs: seq<Acc>)
    requires forall i :: 0 <= i < |accs| ==> accs[i] == Zero()
    ensures SumAcc(accs) == Zero()
  {
    if accs != [] {
      PlusZero(SumAcc(accs[1..]));
      hide Plus;
      SumOfEmpty(accs[1..]);
    }
  }

  lemma AccsStep(w: Window, events: seq<Event>)
    requires w.size > 0 && events != []
    ensures var n := |events| - 1;
            var e, before := events[n], Accs(w, events[..n]);
            && |before| == NumBuckets(w)
            && Accs(w, events)
                == if InWindow(w, e.ts) then before[Index(w, e.ts) := Bump(before[Index(w, e.ts)], e)] else before
  {
    hide Bump, Index, NumBuckets;
    var n := |events| - 1;
    var e, before := events[n], Accs(w, events[..n]);
    var after := if InWindow(w, e.ts) then before[Index(w, e.ts) := Bump(before[Index(w, e.ts)], e)] else before;
    forall i | 0 <= i < NumBuckets(w) ensures Accs(w, events)[i] == after[i] {
      assert before[i] == AccOf(events[..n], InBucket(w, i));
    }
  }

  /** Nothing is lost or counted twice: the buckets add up to what the window holds. */
  lemma {:induction false} BucketsAddUp(w: Window, events: seq<Event>)
    requires w.size > 0
    ensures SumAcc(Accs(w, events)) == AccOf(events, Inside(w))
  {
    hide NumBuckets, Index, Bump;
    if events == [] {
      SumOfEmpty(Accs(w, events));
    } else {
      var n := |events| - 1;
      BucketsAddUp(w, events[..n]);
      AccsStep(w, events);
      hide Accs;
      if InWindow(w, events[n].ts) {
        SumBump(Accs(w, events[..n]), Index(w, events[n].ts), events[n]);
      }
    }
  }

  // ------------------------------------------------------------------------ averages

  lemma {:induction false} SumBetween(events: seq<Event>, lo: int, hi: int)
    requires forall i :: 0 <= i < |events| ==> HasLatency(events[i]) && lo <= events[i].latency.value <= hi
    ensures lo * |events| <= SumLatency(events) <= hi * |events|
  {
    if events != [] {
      var k := |events[1..]|;
      SumBetween(events[1..], lo, hi);
      Distribute(lo, k);
      Distribute(hi, k);
    }
  }

  lemma Distribute(a: int, k: int)
    ensures a * (k + 1) == a * k + a
  {
  }

  lemma DivBetween(total: int, count: int, lo: int, hi: int)
    requires count > 0 && lo > 0 && lo * count <= total <= hi * count
    ensures lo <= TruncDiv(total, count) <= hi
  {
    DivBounds(total, count);
    var q := TruncDiv(total, count);
    if q < lo { Scale(q + 1, lo, count); }
    if q > hi { Scale(hi + 1, q, count); }
  }

  /** An average lies between any bounds of the latencies it averages. */
  lemma AverageBetween(events: seq<Event>, p: Event -> bool, lo: int, hi: int)
    requires lo > 0 && forall e :: e in events && p(e) && HasLatency(e) ==> lo <= e.latency.value <= hi
    requires AccOf(events, p).latencyCount > 0
    ensures var a := AccOf(events, p); lo <= TruncDiv(a.totalLatency, a.latencyCount) <= hi
  {
    hide AccOf, Select;
    AccCounts(events, p);
    var timed := Select(events, WithLatency(p));
    forall i | 0 <= i < |timed| ensures HasLatency(timed[i]) && lo <= timed[i].latency.value <= hi {
      assert timed[i] in timed;
    }
    SumBetween(timed, lo, hi);
    var a := AccOf(events, p);
    DivBetween(a.totalLatency, a.latencyCount, lo, hi);
  }

  // --------------------------------------------------------------------- the program

  /** What a bucket reports, read off the events of its interval. */
  ghost predicate Reports(b: Bucket, w: Window, events: seq<Event>, i: int)
    requires w.size > 0
  {
    var a := AccOf(events, InBucket(w, i));
    && b.start == Edge(w, i)
    && b.delivered == a.delivered && b.failed == a.failed && b.retried == a.retried
    && b.successRate == Rate(a.delivered, a.failed)
    && b.successRate * (b.delivered + b.failed) as real == b.delivered as real
    && b.avgLatency == (if a.latencyCount > 0 then Some(TruncDiv(a.totalLatency, a.latencyCount)) else None)
  }

  function Rate(delivered: nat, failed: nat): (r: real)
    ensures 0.0 <= r <= 1.0 && r * (delivered + failed) as real == delivered as real
    ensures delivered == 0 ==> r == 0.0
  {
    if delivered + failed == 0 then 0.0
    else RateBounded(delivered, failed); delivered as real / (delivered + failed) as real
  }

  lemma RateBounded(d: nat, f: nat)
    requires d + f > 0
    ensures var r := d as real / (d + f) as real;
            0.0 <= r <= 1.0 && r * (d + f) as real == d as real
  {
    var t := (d + f) as real;
    assert d as real <= t;
    assert (d as real / t) * t == d as real;
  }

  function SumOf(buckets: seq<Bucket>): Totals {
    if buckets == [] then Totals(0, 0, 0)
    else
      var b, t := buckets[0], SumOf(buckets[1..]);
      Totals(b.delivered + t.delivered, b.failed + t.failed, b.retried + t.retried)
  }

  lemma {:induction false} SumOfMatches(buckets: seq<Bucket>, accs: seq<Acc>)
    requires |buckets| == |accs|
    requires forall i :: 0 <= i < |accs| ==>
               && buckets[i].delivered == accs[i].delivered && buckets[i].failed == accs[i].failed
               && buckets[i].retried == accs[i].retried
    ensures var a := SumAcc(accs); SumOf(buckets) == Totals(a.delivered, a.failed, a.retried)
  {
    if accs != [] { SumOfMatches(buckets[1..], accs[1..]); }
  }

  method AggregateHealthTimeSeries(events: seq<Event>, w: Window) returns (buckets: seq<Bucket>, totals: Totals)
    requires w.size > 0
    ensures |buckets| == NumBuckets(w)
    ensures forall i :: 0 <= i < |buckets| ==> Reports(buckets[i], w, events, i)
    ensures var all := AccOf(events, Inside(w)); totals == Totals(all.delivered, all.failed, all.retried)
    ensures SumOf(buckets) == totals
  {
    hide NumBuckets, Index, AccOf;
    var accs, all := Accumulate(events, w);
    totals := Totals(all.delivered, all.failed, all.retried);
    buckets := [];
    for i := 0 to accs.Length
      invariant |buckets| == i
      invariant forall j :: 0 <= j < i ==> Reports(buckets[j], w, events, j)
    {
      var a := accs[i];
      assert a == accs[..][i] == AccOf(events, InBucket(w, i));
      var avg := if a.latencyCount > 0 then Some(TruncDiv(a.totalLatency, a.latencyCount)) else None;
      buckets := buckets + [Bucket(w.start + i * w.size, a.delivered, a.failed, a.retried,
          Rate(a.delivered, a.failed), avg)];
    }
    BucketsAddUp(w, events);
    SumOfMatches(buckets, Accs(w, events));
  }

  /** The event loop, over an array of accumulators. */
  method Accumulate(events: seq<Event>, w: Window) returns (accs: array<Acc>, all: Acc)
    requires w.size > 0
    ensures fresh(accs) && accs[..] == Accs(w, events) && all == AccOf(events, Inside(w))
  {
    hide NumBuckets, Index, Bump;
    var n := NumBuckets(w);
    accs := new Acc[n](_ => Zero());
    all := Zero();
    assert accs[..] == Accs(w, events[..0]);
    for k := 0 to |events|
      invariant accs[..] == Accs(w, events[..k]) && all == AccOf(events[..k], Inside(w))
    {
      var e := events[k];
      AccsStep(w, events[..k + 1]);
      assert events[..k + 1][..k] == events[..k];
      if InWindow(w, e.ts) {
        var idx := Index(w, e.ts);
        ghost var before := accs[..];
        accs[idx] := Bump(accs[idx], e);
        assert accs[..] == before[idx := Bump(before[idx], e)];
        all := Bump(all, e);
      }
    }
    assert events[..|events|] == events;
  }
}
