/**
 * Histogram buckets: how values are spread over them, that their counts
 * reconcile with the rows, and that the rows behind a bucket are exactly the
 * rows that were counted in it.
 */
module Buckets {
  import opened Options

  const MAX_BUCKETS: nat := 20

  // ---- counting by an index ----

  /** How many rows `f` sends to `i`. */
  function CountAt<T>(rows: seq<T>, f: T -> Option<nat>, i: nat): nat {
    if rows == [] then 0
    else CountAt(rows[..|rows| - 1], f, i) + (if f(rows[|rows| - 1]) == Some(i) then 1 else 0)
  }

  function CountNone<T>(rows: seq<T>, f: T -> Option<nat>): nat {
    if rows == [] then 0
    else CountNone(rows[..|rows| - 1], f) + (if f(rows[|rows| - 1]).None? then 1 else 0)
  }

  function CountIf<T>(rows: seq<T>, p: T -> bool): nat {
    if rows == [] then 0
    else CountIf(rows[..|rows| - 1], p) + (if p(rows[|rows| - 1]) then 1 else 0)
  }

  function SumAt<T>(rows: seq<T>, f: T -> Option<nat>, n: nat): nat {
    if n == 0 then 0 else SumAt(rows, f, n - 1) + CountAt(rows, f, n - 1)
  }

  lemma {:induction false} SumAtSnoc<T>(rows: seq<T>, row: T, f: T -> Option<nat>, n: nat)
    ensures SumAt(rows + [row], f, n) == SumAt(rows, f, n) + (if f(row).Some? && f(row).value < n then 1 else 0)
  {
    assert (rows + [row])[..|rows|] == rows;
    if n > 0 { SumAtSnoc(rows, row, f, n - 1); }
  }

  /** Every row that has an index below n is counted once, and no other row is. */
  lemma {:induction false} CountsReconcile<T>(rows: seq<T>, f: T -> Option<nat>, n: nat)
    requires forall r :: r in rows && f(r).Some? ==> f(r).value < n
    ensures SumAt(rows, f, n) + CountNone(rows, f) == |rows|
  {
    if rows == [] {
      EmptySum(rows, f, n);
    } else {
      var k := |rows| - 1;
      assert rows == rows[..k] + [rows[k]];
      CountsReconcile(rows[..k], f, n);
      SumAtSnoc(rows[..k], rows[k], f, n);
    }
  }

  lemma {:induction false} EmptySum<T>(rows: seq<T>, f: T -> Option<nat>, n: nat)
    requires rows == []
    ensures SumAt(rows, f, n) == 0
  {
    if n > 0 { EmptySum(rows, f, n - 1); }
  }

  lemma {:induction false} SameCount<T>(rows: seq<T>, f: T -> Option<nat>, i: nat, p: T -> bool)
    requires forall r :: r in rows ==> (f(r) == Some(i) <==> p(r))
    ensures CountAt(rows, f, i) == CountIf(rows, p)
  {
    if rows != [] {
      var k := |rows| - 1;
      assert rows[k] in rows;
      forall r | r in rows[..k] ensures r in rows { }
      SameCount(rows[..k], f, i, p);
    }
  }

  lemma {:induction false} SameNones<T>(rows: seq<T>, f: T -> Option<nat>, p: T -> bool)
    requires forall r :: r in rows ==> (f(r).None? <==> p(r))
    ensures CountNone(rows, f) == CountIf(rows, p)
  {
    if rows != [] {
      var k := |rows| - 1;
      assert rows[k] in rows;
      forall r | r in rows[..k] ensures r in rows { }
      SameNones(rows[..k], f, p);
    }
  }

  // ---- temporal layout ----

  datatype Layout = Layout(width: int, count: int)

  function Max(a: int, b: int): int {
    if a < b then b else a
  }

  function Min(a: int, b: int): int {
    if b < a then b else a
  }

  /** `_temporal_bucket_layout`, over whole microseconds. */
  function TemporalLayout(minimum: int, maximum: int): Layout
    requires minimum <= maximum
  {
    var span := maximum - minimum + 1;
    var width := Max(1, CeilDiv(span, MAX_BUCKETS));
    Layout(width, Min(MAX_BUCKETS, Max(1, CeilDiv(span, width))))
  }

  lemma Quotient(a: int, b: int)
    requires b > 0
    ensures (a / b) * b <= a < (a / b + 1) * b
  {
  }

  lemma Scale(a: int, b: int, c: int)
    requires a <= b && c >= 0
    ensures a * c <= b * c
  {
  }

  function CeilDiv(a: int, b: int): int
    requires b > 0
  {
    (a + b - 1) / b
  }

  lemma CeilDivBounds(a: int, b: int)
    requires a >= 1 && b >= 1
    ensures 1 <= CeilDiv(a, b) && (CeilDiv(a, b) - 1) * b < a <= CeilDiv(a, b) * b
  {
    var n := CeilDiv(a, b);
    Quotient(a + b - 1, b);
    if n <= 0 { Scale(n + 1, 1, b); }
    assert (n + 1) * b == n * b + b;
    assert (n - 1) * b == n * b - b;
  }

  lemma CeilDivAtMost(a: int, b: int, k: int)
    requires a >= 1 && b >= 1 && a <= k * b
    ensures CeilDiv(a, b) <= k
  {
    CeilDivBounds(a, b);
    if CeilDiv(a, b) - 1 >= k { Scale(k, CeilDiv(a, b) - 1, b); }
  }

  /** From one to twenty buckets of at least one microsecond; they cover the span, and the last one is needed. */
  lemma LayoutCovers(minimum: int, maximum: int)
    requires minimum <= maximum
    ensures var l := TemporalLayout(minimum, maximum);
      1 <= l.count <= MAX_BUCKETS && 1 <= l.width && (l.count - 1) * l.width <= maximum - minimum < l.count * l.width
  {
    var span := maximum - minimum + 1;
    var width := CeilDiv(span, MAX_BUCKETS);
    CeilDivBounds(span, MAX_BUCKETS);
    CeilDivBounds(span, width);
    assert span <= MAX_BUCKETS * width;
    CeilDivAtMost(span, width, MAX_BUCKETS);
  }

  /** The index that counting and drill-down both compute, clamp included. */
  function TemporalIndex(v: int, minimum: int, l: Layout): int
    requires l.width >= 1
  {
    Min((v - minimum) / l.width, l.count - 1)
  }

  /** The clamp never changes the index of a value in the measured range. */
  lemma ClampIsIdle(v: int, minimum: int, maximum: int)
    requires minimum <= v <= maximum
    ensures TemporalLayout(minimum, maximum).width >= 1
    ensures var l := TemporalLayout(minimum, maximum);
      0 <= TemporalIndex(v, minimum, l) == (v - minimum) / l.width < l.count
  {
    LayoutCovers(minimum, maximum);
    var l := TemporalLayout(minimum, maximum);
    var q := (v - minimum) / l.width;
    Quotient(v - minimum, l.width);
    if q >= l.count { Scale(l.count, q, l.width); }
    if q < 0 { Scale(q + 1, 0, l.width); }
  }

  /** Half open, but for the last bucket, which ends with the last value. */
  datatype TemporalBucket = TemporalBucket(id: nat, start: int, end: int, count: nat, endInclusive: bool)

  function BucketBounds(minimum: int, maximum: int, i: nat): (int, int, bool)
    requires minimum <= maximum
  {
    var l := TemporalLayout(minimum, maximum);
    var final := i == l.count - 1;
    (minimum + l.width * i, if final then maximum else minimum + l.width * (i + 1), final)
  }

  predicate Within(v: int, bounds: (int, int, bool)) {
    bounds.0 <= v && (if bounds.2 then v <= bounds.1 else v < bounds.1)
  }

  lemma QuotientIs(x: int, w: int, i: int)
    requires w >= 1
    ensures x / w == i <==> w * i <= x < w * (i + 1)
  {
    var q := x / w;
    Quotient(x, w);
    if q < i { Scale(q + 1, i, w); }
    if q > i { Scale(i + 1, q, w); }
  }

  /** A value of the range lies in the bounds of the bucket of its index, and in no other bucket's. */
  lemma IndexIsBucket(v: int, minimum: int, maximum: int, i: nat)
    requires minimum <= v <= maximum && i < TemporalLayout(minimum, maximum).count
    ensures TemporalLayout(minimum, maximum).width >= 1
    ensures TemporalIndex(v, minimum, TemporalLayout(minimum, maximum)) == i <==>
      Within(v, BucketBounds(minimum, maximum, i))
  {
    LayoutCovers(minimum, maximum);
    ClampIsIdle(v, minimum, maximum);
    var l := TemporalLayout(minimum, maximum);
    QuotientIs(v - minimum, l.width, i);
    assert i == l.count - 1 ==> v - minimum < l.width * (i + 1);
  }

  lemma Ladder(w: int, i: int, n: int)
    requires w >= 1 && 0 <= i < n
    ensures 0 <= w * i <= w * (n - 1)
    ensures i < n - 1 ==> w * i < w * (i + 1) <= w * (n - 1)
  {
    Scale(0, i, w);
    Scale(i, n - 1, w);
    if i < n - 1 { Scale(i + 1, n - 1, w); }
  }

  /** No bucket is reversed, the last one included. */
  lemma BucketsAreOrdered(minimum: int, maximum: int, i: nat)
    requires minimum <= maximum && i < TemporalLayout(minimum, maximum).count
    ensures var b := BucketBounds(minimum, maximum, i); minimum <= b.0 <= b.1 <= maximum && (!b.2 ==> b.0 < b.1)
  {
    LayoutCovers(minimum, maximum);
    var l := TemporalLayout(minimum, maximum);
    Ladder(l.width, i, l.count);
  }

  // ---- temporal sections ----

  datatype Cell<T> = Null | NonFinite | Finite(value: T)

  datatype Refusal = NonFiniteValues | EmptyPopulation | RangeUnsupported
  datatype TemporalSection = TemporalSection(minimum: int, maximum: int, buckets: seq<TemporalBucket>)
  datatype Section<S> = Unsupported(reason: Refusal) | Measured(section: S)

  function Nulls<T>(rows: seq<Cell<T>>): nat {
    CountIf(rows, (c: Cell<T>) => c.Null?)
  }

  /** The least and the greatest finite value, where there is one. */
  function Bounds(rows: seq<Cell<int>>): (r: Option<(int, int)>)
    ensures r.None? <==> forall c :: c in rows ==> !c.Finite?
    ensures r.Some? ==> r.value.0 <= r.value.1 && Finite(r.value.0) in rows && Finite(r.value.1) in rows
    ensures r.Some? ==> forall c :: c in rows && c.Finite? ==> r.value.0 <= c.value <= r.value.1
  {
    if rows == [] then None
    else
      var rest, last := Bounds(rows[..|rows| - 1]), rows[|rows| - 1];
      assert rows == rows[..|rows| - 1] + [last];
      if !last.Finite? then rest
      else if rest.None? then Some((last.value, last.value))
      else Some((Min(rest.value.0, last.value), Max(rest.value.1, last.value)))
  }

  /** The grouping key of the count query: null and non-finite rows have none. */
  function TemporalKey(minimum: int, l: Layout): Cell<int> -> Option<nat>
    requires l.width >= 1
  {
    (c: Cell<int>) =>
      if c.Finite? && TemporalIndex(c.value, minimum, l) >= 0 then Some(TemporalIndex(c.value, minimum, l) as nat)
        else None
  }

  /** The rows whose value lies within a bucket's published bounds. */
  function InTemporal(b: TemporalBucket): Cell<int> -> bool {
    (c: Cell<int>) => c.Finite? && Within(c.value, (b.start, b.end, b.endInclusive))
  }

  /** The drill-down's filter: the same index expression, compared with the bucket's position. */
  function TemporalFilter(minimum: int, l: Layout, i: nat): Cell<int> -> bool
    requires l.width >= 1
  {
    (c: Cell<int>) => c.Finite? && TemporalIndex(c.value, minimum, l) == i
  }

  function SumCounts(buckets: seq<TemporalBucket>): nat {
    if buckets == [] then 0 else SumCounts(buckets[..|buckets| - 1]) + buckets[|buckets| - 1].count
  }

  ghost predicate AllFinite<T>(rows: seq<Cell<T>>) {
    forall c :: c in rows ==> !c.NonFinite?
  }

  /** The bucket's bounds are those of its position, and its count is that of the rows within them. */
  ghost predicate Placed(b: TemporalBucket, minimum: int, maximum: int, i: nat, rows: seq<Cell<int>>)
    requires minimum <= maximum
  {
    b.id == i && (b.start, b.end, b.endInclusive) == BucketBounds(minimum, maximum, i)
      && b.count == CountIf(rows, InTemporal(b))
  }

  lemma CountedWithin(rows: seq<Cell<int>>, minimum: int, maximum: int, i: nat, b: TemporalBucket)
    requires Bounds(rows) == Some((minimum, maximum)) && i < TemporalLayout(minimum, maximum).count
    requires (b.start, b.end, b.endInclusive) == BucketBounds(minimum, maximum, i)
    ensures TemporalLayout(minimum, maximum).width >= 1
    ensures var l := TemporalLayout(minimum, maximum);
      CountAt(rows, TemporalKey(minimum, l), i) == CountIf(rows, InTemporal(b)) ==
        CountIf(rows, TemporalFilter(minimum, l, i))
  {
    LayoutCovers(minimum, maximum);
    var l := TemporalLayout(minimum, maximum);
    forall c | c in rows
      ensures TemporalKey(minimum, l)(c) == Some(i) <==> InTemporal(b)(c)
      ensures TemporalKey(minimum, l)(c) == Some(i) <==> TemporalFilter(minimum, l, i)(c)
    {
      if c.Finite? { IndexIsBucket(c.value, minimum, maximum, i); }
    }
    SameCount(rows, TemporalKey(minimum, l), i, InTemporal(b));
    SameCount(rows, TemporalKey(minimum, l), i, TemporalFilter(minimum, l, i));
  }

  /** Every row is null or falls in one bucket, so the counts and the nulls add up to the rows. */
  lemma TemporalReconciles(rows: seq<Cell<int>>, minimum: int, maximum: int)
    requires AllFinite(rows) && Bounds(rows) == Some((minimum, maximum))
    ensures TemporalLayout(minimum, maximum).width >= 1 && TemporalLayout(minimum, maximum).count >= 1
    ensures var l := TemporalLayout(minimum, maximum);
      SumAt(rows, TemporalKey(minimum, l), l.count) + Nulls(rows) == |rows|
  {
    LayoutCovers(minimum, maximum);
    var l := TemporalLayout(minimum, maximum);
    var f := TemporalKey(minimum, l);
    forall c | c in rows ensures (f(c).Some? ==> f(c).value < l.count) && (f(c).None? <==> c.Null?) {
      if c.Finite? { ClampIsIdle(c.value, minimum, maximum); }
    }
    CountsReconcile(rows, f, l.count);
    SameNones(rows, f, (c: Cell<int>) => c.Null?);
  }

  /** The loop of `_temporal_section`: one bucket per position, empty ones included. */
  method BuildBuckets(rows: seq<Cell<int>>, minimum: int, maximum: int) returns (buckets: seq<TemporalBucket>)
    requires Bounds(rows) == Some((minimum, maximum))
    ensures TemporalLayout(minimum, maximum).width >= 1 && |buckets| == TemporalLayout(minimum, maximum).count
    ensures forall i :: 0 <= i < |buckets| ==> Placed(buckets[i], minimum, maximum, i, rows)
    ensures SumCounts(buckets) == SumAt(rows, TemporalKey(minimum, TemporalLayout(minimum, maximum)), |buckets|)
  {
    LayoutCovers(minimum, maximum);
    var l := TemporalLayout(minimum, maximum);
    buckets := [];
    for i := 0 to l.count
      invariant |buckets| == i && SumCounts(buckets) == SumAt(rows, TemporalKey(minimum, l), i)
      invariant forall k :: 0 <= k < i ==> Placed(buckets[k], minimum, maximum, k, rows)
    {
      var bounds, count := BucketBounds(minimum, maximum, i), CountAt(rows, TemporalKey(minimum, l), i);
      var b := TemporalBucket(i, bounds.0, bounds.1, count, bounds.2);
      CountedWithin(rows, minimum, maximum, i, b);
      assert (buckets + [b])[..i] == buckets;
      buckets := buckets + [b];
    }
  }

  /** `_temporal_section`: its own assertion, that the counts reconcile with the measured rows, always holds. */
  method MeasureTemporal(rows: seq<Cell<int>>) returns (r: Section<TemporalSection>)
    ensures r == Unsupported(NonFiniteValues) <==> !AllFinite(rows)
    ensures AllFinite(rows) ==> (r == Unsupported(EmptyPopulation) <==> forall c :: c in rows ==> c.Null?)
    ensures r.Unsupported? ==> r.reason != RangeUnsupported
    ensures r.Measured? ==>
      && Bounds(rows) == Some((r.section.minimum, r.section.maximum))
      && 1 <= |r.section.buckets| == TemporalLayout(r.section.minimum, r.section.maximum).count <= MAX_BUCKETS
      && (forall i :: 0 <= i < |r.section.buckets| ==>
        Placed(r.section.buckets[i], r.section.minimum, r.section.maximum, i, rows))
      && SumCounts(r.section.buckets) + Nulls(rows) == |rows|
  {
    if exists c :: c in rows && c.NonFinite? { return Unsupported(NonFiniteValues); }
    var bounds := Bounds(rows);
    if bounds.None? { return Unsupported(EmptyPopulation); }
    var minimum, maximum := bounds.value.0, bounds.value.1;
    var buckets := BuildBuckets(rows, minimum, maximum);
    LayoutCovers(minimum, maximum);
    TemporalReconciles(rows, minimum, maximum);
    r := Measured(TemporalSection(minimum, maximum, buckets));
  }

  // ---- temporal drill-down ----

  datatype Chosen<F> = Chosen(filter: F, count: nat) | InvalidBucket

  /** What the temporal filter is built from: the layout of the section's own bounds, and a position. */
  datatype TemporalParameters = TemporalParameters(minimum: int, layout: Layout, position: nat)

  /** `_bucket_filter` on a temporal section: the layout is computed again, and the first bucket of the id is taken. */
  method FilterTemporal(s: TemporalSection, id: nat) returns (r: Chosen<TemporalParameters>)
    requires s.minimum <= s.maximum
    ensures r.Chosen? ==>
      && r.filter.minimum == s.minimum && r.filter.layout == TemporalLayout(s.minimum, s.maximum)
      && r.filter.position < |s.buckets| == r.filter.layout.count
      && s.buckets[r.filter.position].id == id && s.buckets[r.filter.position].count == r.count
    ensures r.InvalidBucket? <==>
      |s.buckets| != TemporalLayout(s.minimum, s.maximum).count
        || forall i :: 0 <= i < |s.buckets| ==> s.buckets[i].id != id
  {
    var l := TemporalLayout(s.minimum, s.maximum);
    for i := 0 to |s.buckets|
      invariant forall k :: 0 <= k < i ==> s.buckets[k].id != id
    {
      if s.buckets[i].id == id {
        if |s.buckets| != l.count { return InvalidBucket; }
        return Chosen(TemporalParameters(s.minimum, l, i), s.buckets[i].count);
      }
    }
    r := InvalidBucket;
  }

  /**
   * On a section measured from some rows, every bucket id has its filter; the rows that the filter selects are the rows
   * within the bucket's published bounds, and their number is the count published for it.
   */
  lemma TemporalDrillDownAgrees(rows: seq<Cell<int>>, s: TemporalSection, i: nat, c: Cell<int>)
    requires Bounds(rows) == Some((s.minimum, s.maximum)) && |s.buckets| == TemporalLayout(s.minimum, s.maximum).count
    requires forall k :: 0 <= k < |s.buckets| ==> Placed(s.buckets[k], s.minimum, s.maximum, k, rows)
    requires i < |s.buckets|
    ensures TemporalLayout(s.minimum, s.maximum).width >= 1
    ensures var keep := TemporalFilter(s.minimum, TemporalLayout(s.minimum, s.maximum), i);
      && CountIf(rows, keep) == s.buckets[i].count
      && (c in rows ==> (keep(c) <==> InTemporal(s.buckets[i])(c)))
  {
    LayoutCovers(s.minimum, s.maximum);
    CountedWithin(rows, s.minimum, s.maximum, i, s.buckets[i]);
    if c in rows && c.Finite? { IndexIsBucket(c.value, s.minimum, s.maximum, i); }
  }

  // ---- numeric histograms ----

  datatype NumericBucket = NumericBucket(id: nat, lower: real, upper: real, count: nat, upperInclusive: bool)
  datatype NumericSection = NumericSection(minimum: real, maximum: real, count: nat, nonFinite: nat,
    histogram: seq<NumericBucket>)

  predicate InNumeric(x: real, lower: real, upper: real, upperInclusive: bool) {
    lower <= x && (if upperInclusive then x <= upper else x < upper)
  }

  /** The branch that a CASE over the edges takes: the first whose bounds hold the value. */
  function CaseIndex(edges: seq<real>, x: real, from: nat): (r: Option<nat>)
    requires |edges| == MAX_BUCKETS + 1 && from <= MAX_BUCKETS
    ensures r.Some? ==> from <= r.value < MAX_BUCKETS
    decreases MAX_BUCKETS - from
  {
    if from == MAX_BUCKETS then None
    else if InNumeric(x, edges[from], edges[from + 1], from == MAX_BUCKETS - 1) then Some(from)
    else CaseIndex(edges, x, from + 1)
  }

  ghost predicate Increasing(edges: seq<real>) {
    forall i, j :: 0 <= i < j < |edges| ==> edges[i] < edges[j]
  }

  /** Any strictly increasing edges give exactly one branch to every value between the first and the last. */
  lemma {:induction false} OneBranch(edges: seq<real>, x: real, from: nat)
    requires |edges| == MAX_BUCKETS + 1 && Increasing(edges) && from < MAX_BUCKETS
      && edges[from] <= x <= edges[MAX_BUCKETS]
    ensures CaseIndex(edges, x, from).Some?
    ensures forall i :: from <= i < MAX_BUCKETS ==>
      (CaseIndex(edges, x, from) == Some(i) <==> InNumeric(x, edges[i], edges[i + 1], i == MAX_BUCKETS - 1))
    decreases MAX_BUCKETS - from
  {
    if InNumeric(x, edges[from], edges[from + 1], from == MAX_BUCKETS - 1) {
      assert forall i :: from < i < MAX_BUCKETS ==> edges[from + 1] <= edges[i];
    } else {
      OneBranch(edges, x, from + 1);
    }
  }

  /** And no branch to any other value. */
  lemma {:induction false} NoBranch(edges: seq<real>, x: real, from: nat)
    requires |edges| == MAX_BUCKETS + 1 && Increasing(edges) && from <= MAX_BUCKETS
    requires x < edges[from] || edges[MAX_BUCKETS] < x
    ensures CaseIndex(edges, x, from).None?
    decreases MAX_BUCKETS - from
  {
    if from < MAX_BUCKETS { NoBranch(edges, x, from + 1); }
  }

  function NumericKey(edges: seq<real>): Cell<real> -> Option<nat>
    requires |edges| == MAX_BUCKETS + 1
  {
    (c: Cell<real>) => if c.Finite? then CaseIndex(edges, c.value, 0) else None
  }

  function InBucket(b: NumericBucket): Cell<real> -> bool {
    (c: Cell<real>) => c.Finite? && InNumeric(c.value, b.lower, b.upper, b.upperInclusive)
  }

  function SumHistogram(h: seq<NumericBucket>): nat {
    if h == [] then 0 else SumHistogram(h[..|h| - 1]) + h[|h| - 1].count
  }

  function Finites<T>(rows: seq<Cell<T>>): nat {
    CountIf(rows, (c: Cell<T>) => c.Finite?)
  }

  /** What makes a histogram a partition of [min, max]: adjoining buckets in order, only the last one closed. */
  ghost predicate Partitions(h: seq<NumericBucket>, minimum: real, maximum: real) {
    if minimum == maximum then
      |h| == 1 && h[0].lower == minimum && h[0].upper == maximum && h[0].upperInclusive
    else
      && minimum < maximum && |h| == MAX_BUCKETS
      && (forall i :: 0 <= i < MAX_BUCKETS ==> Adjoins(h, minimum, i))
      && h[MAX_BUCKETS - 1].upper == maximum
  }

  /** The bucket starts where the one before it ends, is not empty, and is closed only at the end of them all. */
  predicate Adjoins(h: seq<NumericBucket>, minimum: real, i: nat)
    requires i < |h|
  {
    && h[i].lower == (if i == 0 then minimum else h[i - 1].upper)
    && h[i].lower < h[i].upper
    && (h[i].upperInclusive <==> i == MAX_BUCKETS - 1)
  }

  /** `_valid_numeric_histogram_layout` accepts exactly the partitions. */
  method ValidNumericLayout(minimum: real, maximum: real, h: seq<NumericBucket>) returns (ok: bool)
    ensures ok <==> Partitions(h, minimum, maximum)
  {
    if minimum == maximum {
      return |h| == 1 && h[0].lower == minimum && h[0].upper == maximum && h[0].upperInclusive;
    }
    if minimum > maximum || |h| != MAX_BUCKETS { return false; }
    var previous := minimum;
    for i := 0 to |h|
      invariant previous == if i == 0 then minimum else h[i - 1].upper
      invariant forall k :: 0 <= k < i ==> Adjoins(h, minimum, k)
    {
      if h[i].lower != previous || h[i].upper <= h[i].lower || h[i].upperInclusive != (i == MAX_BUCKETS - 1) {
        assert !Adjoins(h, minimum, i);
        return false;
      }
      previous := h[i].upper;
    }
    return previous == maximum;
  }

  /** The edges of a partition: its lower bounds, and the last upper one. */
  function Edges(h: seq<NumericBucket>): (edges: seq<real>)
    requires |h| == MAX_BUCKETS
    ensures |edges| == MAX_BUCKETS + 1
    ensures forall i :: 0 <= i <= MAX_BUCKETS ==> edges[i] == if i == MAX_BUCKETS then h[i - 1].upper else h[i].lower
  {
    seq(MAX_BUCKETS + 1, i requires 0 <= i <= MAX_BUCKETS => if i == MAX_BUCKETS then h[i - 1].upper else h[i].lower)
  }

  lemma {:induction false} PartitionRises(h: seq<NumericBucket>, minimum: real, maximum: real, i: nat, j: nat)
    requires Partitions(h, minimum, maximum) && minimum < maximum && i < j <= MAX_BUCKETS
    ensures Edges(h)[i] < Edges(h)[j]
    decreases j
  {
    assert Adjoins(h, minimum, j - 1);
    assert j < MAX_BUCKETS ==> Adjoins(h, minimum, j);
    if i + 1 < j { PartitionRises(h, minimum, maximum, i, j - 1); }
  }

  predicate Holds(b: NumericBucket, x: real) {
    InNumeric(x, b.lower, b.upper, b.upperInclusive)
  }

  lemma PartitionEdges(h: seq<NumericBucket>, minimum: real, maximum: real)
    requires Partitions(h, minimum, maximum) && minimum < maximum
    ensures Increasing(Edges(h)) && Edges(h)[0] == minimum && Edges(h)[MAX_BUCKETS] == maximum
    ensures forall i, x :: 0 <= i < MAX_BUCKETS ==>
      (Holds(h[i], x) <==> InNumeric(x, Edges(h)[i], Edges(h)[i + 1], i == MAX_BUCKETS - 1))
  {
    forall i, j | 0 <= i < j <= MAX_BUCKETS ensures Edges(h)[i] < Edges(h)[j] {
      PartitionRises(h, minimum, maximum, i, j);
    }
    assert Adjoins(h, minimum, 0);
    forall i | 0 <= i < MAX_BUCKETS
      ensures Edges(h)[i] == h[i].lower && Edges(h)[i + 1] == h[i].upper
        && (h[i].upperInclusive <==> i == MAX_BUCKETS - 1)
    {
      assert Adjoins(h, minimum, i);
      assert i + 1 < MAX_BUCKETS ==> Adjoins(h, minimum, i + 1);
    }
  }

  /** In a histogram the validator accepts, every value of the range lies in exactly one bucket. */
  lemma OneBucketEach(h: seq<NumericBucket>, minimum: real, maximum: real, x: real) returns (k: nat)
    requires Partitions(h, minimum, maximum) && minimum <= x <= maximum
    ensures k < |h| && forall j :: 0 <= j < |h| ==> (Holds(h[j], x) <==> j == k)
  {
    if minimum < maximum {
      PartitionEdges(h, minimum, maximum);
      OneBranch(Edges(h), x, 0);
      k := CaseIndex(Edges(h), x, 0).value;
    } else {
      k := 0;
    }
  }

  // ---- numeric sections ----

  /** The measured range of the finite values. */
  ghost predicate Spans(rows: seq<Cell<real>>, minimum: real, maximum: real) {
    && Finite(minimum) in rows && Finite(maximum) in rows
    && forall c :: c in rows && c.Finite? ==> minimum <= c.value <= maximum
  }

  predicate Rising(edges: seq<real>) {
    forall i :: 0 <= i < |edges| - 1 ==> edges[i] < edges[i + 1]
  }

  lemma {:induction false} RisingIsIncreasing(edges: seq<real>, i: nat, j: nat)
    requires Rising(edges) && i < j < |edges|
    ensures edges[i] < edges[j]
    decreases j
  {
    if i + 1 < j { RisingIsIncreasing(edges, i, j - 1); }
  }

  /** A numeric bucket counts the rows it holds. */
  ghost predicate Tallied(b: NumericBucket, rows: seq<Cell<real>>) {
    b.count == CountIf(rows, InBucket(b))
  }

  /** The bucket between two neighbouring edges. */
  predicate Between(b: NumericBucket, edges: seq<real>, i: nat)
    requires |edges| == MAX_BUCKETS + 1 && i < MAX_BUCKETS
  {
    b.lower == edges[i] && b.upper == edges[i + 1] && (b.upperInclusive <==> i == MAX_BUCKETS - 1)
  }

  lemma BranchIs(edges: seq<real>, i: nat, b: NumericBucket, c: Cell<real>)
    requires |edges| == MAX_BUCKETS + 1 && Increasing(edges) && i < MAX_BUCKETS && Between(b, edges, i)
    requires c.Finite? ==> edges[0] <= c.value <= edges[MAX_BUCKETS]
    ensures NumericKey(edges)(c) == Some(i) <==> InBucket(b)(c)
  {
    if c.Finite? { OneBranch(edges, c.value, 0); }
  }

  lemma BranchCounts(rows: seq<Cell<real>>, edges: seq<real>, i: nat, b: NumericBucket)
    requires |edges| == MAX_BUCKETS + 1 && Increasing(edges) && Spans(rows, edges[0], edges[MAX_BUCKETS])
      && i < MAX_BUCKETS
    requires Between(b, edges, i)
    ensures CountAt(rows, NumericKey(edges), i) == CountIf(rows, InBucket(b))
  {
    forall c | c in rows ensures NumericKey(edges)(c) == Some(i) <==> InBucket(b)(c) { BranchIs(edges, i, b, c); }
    SameCount(rows, NumericKey(edges), i, InBucket(b));
  }

  lemma {:induction false} NullsAndFinites<T>(rows: seq<Cell<T>>)
    ensures Finites(rows) + Nulls(rows) + CountIf(rows, (c: Cell<T>) => c.NonFinite?) == |rows|
  {
    if rows != [] { NullsAndFinites(rows[..|rows| - 1]); }
  }

  lemma NumericReconciles(rows: seq<Cell<real>>, edges: seq<real>)
    requires |edges| == MAX_BUCKETS + 1 && Increasing(edges) && Spans(rows, edges[0], edges[MAX_BUCKETS])
    ensures SumAt(rows, NumericKey(edges), MAX_BUCKETS) == Finites(rows)
  {
    var f := NumericKey(edges);
    forall c | c in rows ensures f(c).Some? <==> c.Finite? {
      if c.Finite? { OneBranch(edges, c.value, 0); }
    }
    CountsReconcile(rows, f, MAX_BUCKETS);
    SameNones(rows, f, (c: Cell<real>) => !c.Finite?);
    FiniteOrNot(rows);
  }

  lemma {:induction false} FiniteOrNot(rows: seq<Cell<real>>)
    ensures Finites(rows) + CountIf(rows, (c: Cell<real>) => !c.Finite?) == |rows|
  {
    if rows != [] { FiniteOrNot(rows[..|rows| - 1]); }
  }

  lemma AdjoinsSnoc(h: seq<NumericBucket>, minimum: real, b: NumericBucket)
    requires b.lower == (if h == [] then minimum else h[|h| - 1].upper) && b.lower < b.upper
    requires b.upperInclusive <==> |h| == MAX_BUCKETS - 1
    ensures (h + [b])[..|h|] == h && Adjoins(h + [b], minimum, |h|)
    ensures forall k :: 0 <= k < |h| && Adjoins(h, minimum, k) ==> Adjoins(h + [b], minimum, k)
  {
  }

  /** The counting query and the loop over its buckets, for edges that were checked to rise. */
  method BuildHistogram(rows: seq<Cell<real>>, edges: seq<real>) returns (h: seq<NumericBucket>)
    requires |edges| == MAX_BUCKETS + 1 && Increasing(edges) && Spans(rows, edges[0], edges[MAX_BUCKETS])
    ensures Partitions(h, edges[0], edges[MAX_BUCKETS])
    ensures forall i :: 0 <= i < |h| ==> h[i].id == i && Tallied(h[i], rows)
    ensures |h| == MAX_BUCKETS && forall i :: 0 <= i < MAX_BUCKETS ==> Between(h[i], edges, i)
    ensures SumHistogram(h) == Finites(rows)
  {
    h := [];
    for i := 0 to MAX_BUCKETS
      invariant |h| == i && SumHistogram(h) == SumAt(rows, NumericKey(edges), i)
      invariant forall k :: 0 <= k < i ==> Adjoins(h, edges[0], k)
      invariant forall k :: 0 <= k < i ==> Between(h[k], edges, k)
      invariant forall k :: 0 <= k < i ==> h[k].id == k && Tallied(h[k], rows)
    {
      var b := NumericBucket(i, edges[i], edges[i + 1], CountAt(rows, NumericKey(edges), i), i == MAX_BUCKETS - 1);
      BranchCounts(rows, edges, i, b);
      AdjoinsSnoc(h, edges[0], b);
      h := h + [b];
    }
    NumericReconciles(rows, edges);
  }

  /** The bucket that a row is counted in: the only one there is, or the one of its CASE branch. */
  function BucketOf(minimum: real, maximum: real, edges: seq<real>): Cell<real> -> Option<nat>
    requires |edges| == MAX_BUCKETS + 1
  {
    if minimum == maximum then ((c: Cell<real>) => if c.Finite? then Some(0) else None) else NumericKey(edges)
  }

  /** What a measured section is of its rows. */
  ghost predicate MeasuredFrom(s: NumericSection, rows: seq<Cell<real>>, edges: seq<real>) {
    && |edges| == MAX_BUCKETS + 1 && edges[0] == s.minimum && edges[MAX_BUCKETS] == s.maximum
    && Spans(rows, s.minimum, s.maximum) && Partitions(s.histogram, s.minimum, s.maximum)
    && (s.minimum != s.maximum ==>
      Increasing(edges) && forall i :: 0 <= i < MAX_BUCKETS ==> Between(s.histogram[i], edges, i))
    && (forall i :: 0 <= i < |s.histogram| ==> s.histogram[i].id == i && Tallied(s.histogram[i], rows))
  }

  /**
   * The histogram part of `_numeric_section`, for whatever twenty-one edges the arithmetic produced: it is refused when
   * the span is wider than deviations can be computed for, or when the edges do not rise; otherwise it partitions the
   * range, so the validator accepts it.
   */
  method MeasureNumeric(rows: seq<Cell<real>>, minimum: real, maximum: real, edges: seq<real>, maxSpan: real)
    returns (r: Section<NumericSection>)
    requires Finites(rows) > 0 ==> Spans(rows, minimum, maximum)
    requires |edges| == MAX_BUCKETS + 1 && edges[0] == minimum && edges[MAX_BUCKETS] == maximum
    ensures r == Unsupported(EmptyPopulation) <==> Finites(rows) == 0
    ensures Finites(rows) > 0 ==> (r == Unsupported(RangeUnsupported) <==>
      minimum != maximum && (maximum - minimum > maxSpan || !Rising(edges)))
    ensures r.Measured? ==>
      && r.section.minimum == minimum && r.section.maximum == maximum && MeasuredFrom(r.section, rows, edges)
      && SumHistogram(r.section.histogram) == r.section.count == Finites(rows)
      && r.section.count + r.section.nonFinite + Nulls(rows) == |rows|
  {
    NullsAndFinites(rows);
    var count, nonFinite := Finites(rows), CountIf(rows, (c: Cell<real>) => c.NonFinite?);
    if count == 0 { return Unsupported(EmptyPopulation); }
    if minimum == maximum {
      var b := NumericBucket(0, minimum, maximum, count, true);
      OneValue(rows, b);
      assert [b][..0] == [];
      return Measured(NumericSection(minimum, maximum, count, nonFinite, [b]));
    }
    if maximum - minimum > maxSpan || !Rising(edges) { return Unsupported(RangeUnsupported); }
    forall i, j | 0 <= i < j < |edges| ensures edges[i] < edges[j] {
      RisingIsIncreasing(edges, i, j);
    }
    var h := BuildHistogram(rows, edges);
    r := Measured(NumericSection(minimum, maximum, count, nonFinite, h));
  }

  lemma {:induction false} OneValue(rows: seq<Cell<real>>, b: NumericBucket)
    requires b.lower == b.upper && b.upperInclusive && forall c :: c in rows && c.Finite? ==> c.value == b.lower
    ensures CountIf(rows, InBucket(b)) == Finites(rows)
  {
    if rows != [] {
      var k := |rows| - 1;
      assert rows[k] in rows;
      forall c | c in rows[..k] ensures c in rows { }
      OneValue(rows[..k], b);
    }
  }

  datatype NumericParameters = NumericParameters(lower: real, upper: real, upperInclusive: bool)

  /** The numeric filter of a drill-down. */
  function NumericFilter(p: NumericParameters): Cell<real> -> bool {
    (c: Cell<real>) => c.Finite? && InNumeric(c.value, p.lower, p.upper, p.upperInclusive)
  }

  function FirstOfId(h: seq<NumericBucket>, id: nat): Option<NumericBucket> {
    if h == [] then None else if h[0].id == id then Some(h[0]) else FirstOfId(h[1..], id)
  }

  /** The filter for a bucket id: the bucket's own bounds, once the whole layout has been checked. */
  ghost function ChosenBucket(s: NumericSection, id: nat): Chosen<NumericParameters> {
    match FirstOfId(s.histogram, id)
    case None => InvalidBucket
    case Some(b) =>
      if Partitions(s.histogram, s.minimum, s.maximum)
      then Chosen(NumericParameters(b.lower, b.upper, b.upperInclusive), b.count) else InvalidBucket
  }

  lemma {:induction false} FirstAt(h: seq<NumericBucket>, id: nat, i: nat)
    requires i <= |h| && forall k :: 0 <= k < i ==> h[k].id != id
    ensures FirstOfId(h, id) == if i < |h| && h[i].id == id then Some(h[i]) else FirstOfId(h[i..], id)
  {
    if i > 0 {
      FirstAt(h[1..], id, i - 1);
      assert h[1..][i - 1..] == h[i..];
    }
  }

  /** `_bucket_filter` on a numeric section. */
  method FilterNumeric(s: NumericSection, id: nat) returns (r: Chosen<NumericParameters>)
    ensures r == ChosenBucket(s, id)
    ensures r.InvalidBucket? <==>
      !Partitions(s.histogram, s.minimum, s.maximum) || forall i :: 0 <= i < |s.histogram| ==> s.histogram[i].id != id
  {
    for i := 0 to |s.histogram|
      invariant forall k :: 0 <= k < i ==> s.histogram[k].id != id
    {
      var b := s.histogram[i];
      if b.id == id {
        FirstAt(s.histogram, id, i);
        var ok := ValidNumericLayout(s.minimum, s.maximum, s.histogram);
        if !ok { return InvalidBucket; }
        return Chosen(NumericParameters(b.lower, b.upper, b.upperInclusive), b.count);
      }
    }
    FirstAt(s.histogram, id, |s.histogram|);
    r := InvalidBucket;
  }

  /**
   * On a section measured from some rows every bucket id, and no other, has a filter; the rows that it selects are
   * exactly the rows counted in that bucket, and their number is the count published for it.
   */
  lemma NumericDrillDownAgrees(rows: seq<Cell<real>>, edges: seq<real>, s: NumericSection, id: nat)
    requires MeasuredFrom(s, rows, edges)
    ensures ChosenBucket(s, id).Chosen? <==> id < |s.histogram|
    ensures id < |s.histogram| ==>
      var keep := NumericFilter(ChosenBucket(s, id).filter);
      && (forall c :: c in rows ==> (keep(c) <==> BucketOf(s.minimum, s.maximum, edges)(c) == Some(id)))
      && CountIf(rows, keep) == ChosenBucket(s, id).count == s.histogram[id].count
  {
    if id < |s.histogram| {
      var b := s.histogram[id];
      FirstAt(s.histogram, id, id);
      SameFilter(rows, b);
      var keep := NumericFilter(ChosenBucket(s, id).filter);
      forall c | c in rows ensures keep(c) <==> BucketOf(s.minimum, s.maximum, edges)(c) == Some(id) {
        if s.minimum != s.maximum { BranchIs(edges, id, b, c); }
      }
    } else {
      FirstAt(s.histogram, id, |s.histogram|);
    }
  }

  lemma {:induction false} SameFilter(rows: seq<Cell<real>>, b: NumericBucket)
    ensures CountIf(rows, NumericFilter(NumericParameters(b.lower, b.upper, b.upperInclusive))) ==
      CountIf(rows, InBucket(b))
  {
    if rows != [] { SameFilter(rows[..|rows| - 1], b); }
  }
}
