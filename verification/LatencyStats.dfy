/** The statistics reported for latencies, over exact reals: the interpolated percentile, the
    median, and the bootstrap interval of the median.
 */
module LatencyStats {

  // ---------- Sorting ----------

  predicate Ascending(s: seq<real>) {
    forall i, j :: 0 <= i < j < |s| ==> s[i] <= s[j]
  }

  function Insert(x: real, s: seq<real>): seq<real> {
    if s == [] || x <= s[0] then [x] + s else [s[0]] + Insert(x, s[1..])
  }

  function Sorted(values: seq<real>): seq<real> {
    if values == [] then [] else Insert(values[0], Sorted(values[1..]))
  }

  lemma {:induction false} InsertKeeps(x: real, s: seq<real>)
    ensures multiset(Insert(x, s)) == multiset{x} + multiset(s)
    decreases |s|
  {
    if s != [] && x > s[0] {
      InsertKeeps(x, s[1..]);
      assert s == [s[0]] + s[1..];
    }
  }

  lemma {:induction false} InsertStaysAbove(x: real, s: seq<real>, b: real)
    requires b <= x && forall i :: 0 <= i < |s| ==> b <= s[i]
    ensures forall i :: 0 <= i < |Insert(x, s)| ==> b <= Insert(x, s)[i]
    decreases |s|
  {
    if s != [] && x > s[0] {
      InsertStaysAbove(x, s[1..], b);
    }
  }

  lemma {:induction false} InsertOrders(x: real, s: seq<real>)
    requires Ascending(s)
    ensures Ascending(Insert(x, s))
    decreases |s|
  {
    if s != [] && x > s[0] {
      InsertOrders(x, s[1..]);
      InsertStaysAbove(x, s[1..], s[0]);
    }
  }

  lemma {:induction false} SortedOrders(values: seq<real>)
    ensures Ascending(Sorted(values)) && multiset(Sorted(values)) == multiset(values) && |Sorted(values)| == |values|
    decreases |values|
  {
    if values != [] {
      SortedOrders(values[1..]);
      InsertOrders(values[0], Sorted(values[1..]));
      InsertKeeps(values[0], Sorted(values[1..]));
      assert values == [values[0]] + values[1..];
    }
    SameSize(Sorted(values), values);
  }

  lemma {:induction false} SameSize(a: seq<real>, b: seq<real>)
    requires multiset(a) == multiset(b)
    ensures |a| == |b|
  {
    assert |multiset(a)| == |a| && |multiset(b)| == |b|;
  }

  /** There is only one way to put given values in order. */
  lemma {:induction false} OrderIsUnique(a: seq<real>, b: seq<real>)
    requires Ascending(a) && Ascending(b) && multiset(a) == multiset(b)
    ensures a == b
    decreases |a|
  {
    SameSize(a, b);
    if a != [] {
      HeadIsLeast(a, b);
      HeadIsLeast(b, a);
      SameTails(a, b);
      OrderIsUnique(a[1..], b[1..]);
      assert a == [a[0]] + a[1..] && b == [b[0]] + b[1..];
    }
  }

  lemma {:induction false} HeadIsLeast(a: seq<real>, b: seq<real>)
    requires Ascending(a) && a != [] && b != [] && multiset(a) == multiset(b)
    ensures a[0] <= b[0]
  {
    assert b[0] in multiset(a);
    var i :| 0 <= i < |a| && a[i] == b[0];
  }

  lemma {:induction false} SameTails(a: seq<real>, b: seq<real>)
    requires a != [] && b != [] && a[0] == b[0] && multiset(a) == multiset(b)
    ensures multiset(a[1..]) == multiset(b[1..])
  {
    assert a == [a[0]] + a[1..] && b == [b[0]] + b[1..];
    assert multiset(a[1..]) == multiset(a) - multiset{a[0]};
    assert multiset(b[1..]) == multiset(b) - multiset{b[0]};
  }

  // ---------- Percentiles ----------

  /** From `a` at 0 to `b` at 1. */
  function Line(a: real, b: real, f: real): real {
    a + (b - a) * f
  }

  lemma {:induction false} Scaled(c: real, x: real, y: real)
    requires 0.0 <= c && x <= y
    ensures c * x <= c * y
  {
  }

  lemma {:induction false} LineRises(a: real, b: real, f: real, g: real)
    requires a <= b && f <= g
    ensures Line(a, b, f) <= Line(a, b, g)
  {
  }

  lemma {:induction false} LineEnds(a: real, b: real)
    ensures Line(a, b, 0.0) == a && Line(a, b, 1.0) == b && Line(a, b, 0.5) == (a + b) / 2.0
  {
  }

  /** The value at a real position, on the straight line between its two neighbours. */
  function At(ordered: seq<real>, position: real): real
    requires ordered != [] && 0.0 <= position <= (|ordered| - 1) as real
  {
    var lower := position.Floor;
    var upper := if lower + 1 < |ordered| - 1 then lower + 1 else |ordered| - 1;
    Line(ordered[lower], ordered[upper], position - lower as real)
  }

  function Position(n: nat, q: real): (p: real)
    requires n > 0 && 0.0 <= q <= 1.0
    ensures 0.0 <= p <= (n - 1) as real
  {
    Scaled((n - 1) as real, q, 1.0);
    Scaled((n - 1) as real, 0.0, q);
    (n - 1) as real * q
  }

  lemma {:induction false} PositionRises(n: nat, p: real, q: real)
    requires n > 0 && 0.0 <= p <= q <= 1.0
    ensures Position(n, p) <= Position(n, q)
  {
    Scaled((n - 1) as real, p, q);
  }

  lemma {:induction false} PositionEnds(n: nat)
    requires n > 0
    ensures Position(n, 0.0) == 0.0 && Position(n, 1.0) == (n - 1) as real
    ensures Position(n, 0.5) == (n - 1) as real / 2.0
  {
  }

  lemma {:induction false} MiddlePosition(n: nat)
    requires n > 0
    ensures n % 2 == 1 ==> Position(n, 0.5) == (n / 2) as real
    ensures n % 2 == 0 ==> Position(n, 0.5) == (n / 2 - 1) as real + 0.5
  {
  }

  function Percentile(values: seq<real>, q: real): real
    requires values != [] && 0.0 <= q <= 1.0
  {
    SortedOrders(values);
    At(Sorted(values), Position(|values|, q))
  }

  /** statistics.median. */
  function Median(values: seq<real>): real
    requires values != []
  {
    SortedOrders(values);
    var s, n := Sorted(values), |values|;
    if n % 2 == 1 then s[n / 2] else (s[n / 2 - 1] + s[n / 2]) / 2.0
  }

  lemma {:induction false} AtMonotone(s: seq<real>, x: real, y: real)
    requires s != [] && Ascending(s) && 0.0 <= x <= y <= (|s| - 1) as real
    ensures At(s, x) <= At(s, y)
  {
    var i, j := x.Floor, y.Floor;
    var iu := if i + 1 < |s| - 1 then i + 1 else |s| - 1;
    var ju := if j + 1 < |s| - 1 then j + 1 else |s| - 1;
    if i == j {
      LineRises(s[i], s[iu], x - i as real, y - j as real);
    } else {
      assert i < j && iu <= j;
      LineRises(s[i], s[iu], x - i as real, 1.0);
      LineEnds(s[i], s[iu]);
      LineRises(s[j], s[ju], 0.0, y - j as real);
      LineEnds(s[j], s[ju]);
      hide Line;
      assert At(s, x) <= s[iu] <= s[j] <= At(s, y);
    }
  }

  lemma {:induction false} PercentileMonotone(values: seq<real>, p: real, q: real)
    requires values != [] && 0.0 <= p <= q <= 1.0
    ensures Percentile(values, p) <= Percentile(values, q)
  {
    SortedOrders(values);
    PositionRises(|values|, p, q);
    AtMonotone(Sorted(values), Position(|values|, p), Position(|values|, q));
    hide At, Sorted, Position, Ascending;
  }

  /** The order in which the values were measured does not matter. */
  lemma {:induction false} PercentileIgnoresOrder(a: seq<real>, b: seq<real>, q: real)
    requires a != [] && multiset(a) == multiset(b) && 0.0 <= q <= 1.0
    ensures b != [] && Percentile(a, q) == Percentile(b, q) && Median(a) == Median(b)
  {
    SameSize(a, b);
    SortedOrders(a);
    SortedOrders(b);
    OrderIsUnique(Sorted(a), Sorted(b));
    hide At, Sorted, Position, Ascending;
  }

  lemma {:induction false} MedianIsMiddlePercentile(values: seq<real>)
    requires values != []
    ensures Percentile(values, 0.5) == Median(values)
  {
    SortedOrders(values);
    MiddlePosition(|values|);
    MiddleAt(Sorted(values), Position(|values|, 0.5));
    hide At, Sorted, Position, Ascending;
  }

  lemma {:induction false} MiddleAt(s: seq<real>, position: real)
    requires s != [] && position == if |s| % 2 == 1 then (|s| / 2) as real else (|s| / 2 - 1) as real + 0.5
    ensures 0.0 <= position <= (|s| - 1) as real
    ensures At(s, position) == if |s| % 2 == 1 then s[|s| / 2] else (s[|s| / 2 - 1] + s[|s| / 2]) / 2.0
  {
    var i := position.Floor;
    var u := if i + 1 < |s| - 1 then i + 1 else |s| - 1;
    assert i == if |s| % 2 == 1 then |s| / 2 else |s| / 2 - 1;
    LineEnds(s[i], s[u]);
    hide Line;
  }

  lemma {:induction false} EndsAt(s: seq<real>)
    requires s != []
    ensures At(s, 0.0) == s[0] && At(s, (|s| - 1) as real) == s[|s| - 1]
  {
  }

  lemma {:induction false} PercentileEnds(values: seq<real>)
    requires values != []
    ensures |Sorted(values)| == |values|
    ensures Percentile(values, 0.0) == Sorted(values)[0] && Percentile(values, 1.0) == Sorted(values)[|values| - 1]
  {
    SortedOrders(values);
    PositionEnds(|values|);
    EndsAt(Sorted(values));
    hide At, Sorted, Position, Ascending;
  }

  // ---------- What a percentile is ----------

  /** `s` is the values in ascending order. */
  ghost predicate Arranges(s: seq<real>, values: seq<real>) {
    Ascending(s) && multiset(s) == multiset(values)
  }

  /** The value at position `p` between ranks k and k + 1, or at the last rank. */
  function Between(s: seq<real>, p: real, k: nat): real
    requires k < |s|
  {
    if k + 1 < |s| then s[k] + (s[k + 1] - s[k]) * (p - k as real) else s[k]
  }

  lemma {:induction false} AtBetween(s: seq<real>, p: real, k: nat)
    requires s != [] && 0.0 <= p <= (|s| - 1) as real && k as real <= p < k as real + 1.0
    ensures k < |s|
    ensures At(s, p) == Between(s, p, k)
  {
    assert p.Floor == k;
    if k + 1 == |s| {
      FlatLine(s[k], p - k as real);
    }
  }

  /** Of n values in order, counted from 0, the one at position p = (n - 1) * q, on the straight line
      between the two neighbours when that is between ranks. */
  lemma {:induction false} PercentileBetweenRanks(values: seq<real>, s: seq<real>, q: real, p: real, k: nat)
    requires values != [] && 0.0 <= q <= 1.0 && Arranges(s, values)
    requires p == (|values| - 1) as real * q && k as real <= p < k as real + 1.0
    ensures |s| == |values| && k < |s|
    ensures Percentile(values, q) == Between(s, p, k)
  {
    SameSize(s, values);
    SortedOrders(values);
    OrderIsUnique(s, Sorted(values));
    PositionIs(|values|, q);
    hide Sorted, Ascending, At, Position, Between;
    AtBetween(s, p, k);
  }

  lemma {:induction false} PositionIs(n: nat, q: real)
    requires n > 0 && 0.0 <= q <= 1.0
    ensures Position(n, q) == (n - 1) as real * q && 0.0 <= Position(n, q) <= (n - 1) as real
  {
  }

  lemma {:induction false} FlatLine(a: real, f: real)
    ensures Line(a, a, f) == a
  {
  }

  /** How many of the values are at most, and at least, `x`. */
  function AtMost(values: seq<real>, x: real): nat {
    if values == [] then 0 else (if values[0] <= x then 1 else 0) + AtMost(values[1..], x)
  }

  function AtLeast(values: seq<real>, x: real): nat {
    if values == [] then 0 else (if values[0] >= x then 1 else 0) + AtLeast(values[1..], x)
  }

  lemma {:induction false} CountsIgnoreOrder(a: seq<real>, b: seq<real>, x: real)
    requires multiset(a) == multiset(b)
    ensures AtMost(a, x) == AtMost(b, x) && AtLeast(a, x) == AtLeast(b, x)
    decreases |a|
  {
    SameSize(a, b);
    if a != [] {
      assert a[0] in multiset(b);
      var i :| 0 <= i < |b| && b[i] == a[0];
      WithoutOne(a, 0);
      WithoutOne(b, i);
      CountsIgnoreOrder(a[1..], b[..i] + b[i + 1..], x);
      CountsSplit(b, i, x);
    }
  }

  lemma {:induction false} WithoutOne(b: seq<real>, i: nat)
    requires i < |b|
    ensures multiset(b[..i] + b[i + 1..]) == multiset(b) - multiset{b[i]}
    ensures i == 0 ==> b[..i] + b[i + 1..] == b[1..]
  {
    assert b == b[..i] + [b[i]] + b[i + 1..];
  }

  lemma {:induction false} CountsSplit(b: seq<real>, i: nat, x: real)
    requires i < |b|
    ensures AtMost(b, x) == AtMost(b[..i] + b[i + 1..], x) + if b[i] <= x then 1 else 0
    ensures AtLeast(b, x) == AtLeast(b[..i] + b[i + 1..], x) + if b[i] >= x then 1 else 0
    decreases i
  {
    var rest := b[..i] + b[i + 1..];
    if i == 0 {
      assert rest == b[1..];
    } else {
      CountsSplit(b[1..], i - 1, x);
      assert rest[1..] == b[1..][..i - 1] + b[1..][i..];
    }
  }

  lemma {:induction false} CountsInOrder(s: seq<real>, k: nat, x: real)
    requires Ascending(s) && k <= |s|
    ensures (k == 0 || s[k - 1] <= x) ==> AtMost(s, x) >= k
    ensures (k == |s| || x <= s[k]) ==> AtLeast(s, x) >= |s| - k
    decreases |s|
  {
    if s != [] {
      CountsInOrder(s[1..], if k == 0 then 0 else k - 1, x);
    }
  }

  lemma {:induction false} OnTheLine(a: real, b: real, f: real)
    requires a <= b && 0.0 <= f < 1.0
    ensures a <= a + (b - a) * f <= b
    ensures f == 0.0 ==> a + (b - a) * f == a
  {
    LineRises(a, b, 0.0, f);
    LineRises(a, b, f, 1.0);
    LineEnds(a, b);
  }

  lemma {:induction false} BetweenNeighbours(s: seq<real>, p: real, k: nat)
    requires Ascending(s) && k < |s| && k as real <= p < k as real + 1.0
    ensures s[k] <= Between(s, p, k)
    ensures k + 1 < |s| ==> Between(s, p, k) <= s[k + 1]
    ensures k + 1 == |s| || p == k as real ==> Between(s, p, k) == s[k]
  {
    if k + 1 < |s| {
      OnTheLine(s[k], s[k + 1], p - k as real);
    }
  }

  /** At least k + 1 of the n values, k being the position (n - 1) * q rounded down, are at most the
      percentile, and at least n - 1 - k of them are at least it, one more at a whole position. */
  lemma {:induction false} PercentileRank(values: seq<real>, q: real, p: real, k: nat)
    requires values != [] && 0.0 <= q <= 1.0
    requires p == Position(|values|, q) && k as real <= p < k as real + 1.0
    ensures AtMost(values, Percentile(values, q)) >= k + 1
    ensures AtLeast(values, Percentile(values, q)) >= |values| - if p == k as real then k else k + 1
  {
    SortedOrders(values);
    PositionIs(|values|, q);
    hide Percentile, Sorted, AtMost, AtLeast, Position, Between;
    var s, x := Sorted(values), Percentile(values, q);
    PercentileBetweenRanks(values, s, q, p, k);
    BetweenNeighbours(s, p, k);
    CountsIgnoreOrder(values, s, x);
    CountsInOrder(s, k + 1, x);
    CountsInOrder(s, k, x);
  }

  function Max(values: seq<real>): (m: real)
    requires values != []
    ensures m in values && forall v :: v in values ==> v <= m
  {
    if |values| == 1 then values[0]
    else
      var rest := Max(values[1..]);
      assert values == [values[0]] + values[1..];
      if values[0] >= rest then values[0] else rest
  }

  lemma {:induction false} LastIsMax(values: seq<real>)
    requires values != []
    ensures |Sorted(values)| == |values| && Sorted(values)[|values| - 1] == Max(values)
  {
    SortedOrders(values);
    var s, m := Sorted(values), Max(values);
    assert m in multiset(values) && s[|s| - 1] in multiset(s);
    assert m in multiset(s) && s[|s| - 1] in values;
    var k :| 0 <= k < |s| && s[k] == m;
  }

  // ---------- The summary ----------

  datatype Summary = Empty | Summary(n: nat, median: real, p95: real, p99: real, maximum: real)

  /** latency_summary without the interval. */
  function Summarise(values: seq<real>): Summary {
    if values == [] then Empty
    else Summary(|values|, Median(values), Percentile(values, 0.95), Percentile(values, 0.99), Max(values))
  }

  lemma {:induction false} SummaryIsOrdered(values: seq<real>)
    requires values != []
    ensures var s := Summarise(values); s.Summary? && s.median <= s.p95 <= s.p99 <= s.maximum
    ensures forall v :: v in values ==> Percentile(values, 0.0) <= v
    ensures Percentile(values, 0.0) <= Summarise(values).median
  {
    MedianIsMiddlePercentile(values);
    PercentileMonotone(values, 0.0, 0.5);
    PercentileMonotone(values, 0.5, 0.95);
    PercentileMonotone(values, 0.95, 0.99);
    PercentileMonotone(values, 0.99, 1.0);
    PercentileEnds(values);
    LastIsMax(values);
    FirstIsMin(values);
  }

  /** Which quantiles the summary reports, for any arrangement of the values in order. */
  lemma {:induction false} SummaryQuantiles(values: seq<real>, s: seq<real>, p95: real, p99: real)
    requires values != [] && Arranges(s, values)
    requires p95 == Position(|values|, 0.95) && p99 == Position(|values|, 0.99)
    ensures |s| == |values| && 0 <= p95.Floor < |s| && 0 <= p99.Floor < |s|
    ensures var r, n := Summarise(values), |values|;
      && r.Summary? && r.n == n && r.maximum == s[n - 1]
      && r.median == (if n % 2 == 1 then s[n / 2] else (s[n / 2 - 1] + s[n / 2]) / 2.0)
      && r.p95 == Between(s, p95, p95.Floor) && r.p99 == Between(s, p99, p99.Floor)
  {
    SortedOrders(values);
    LastIsMax(values);
    PositionIs(|values|, 0.95);
    PositionIs(|values|, 0.99);
    hide Percentile, Sorted, Max, Between, Position;
    PercentileBetweenRanks(values, s, 0.95, p95, p95.Floor);
    PercentileBetweenRanks(values, s, 0.99, p99, p99.Floor);
    OrderIsUnique(s, Sorted(values));
  }

  lemma {:induction false} FirstIsMin(values: seq<real>)
    requires values != []
    ensures |Sorted(values)| == |values| && forall v :: v in values ==> Sorted(values)[0] <= v
  {
    SortedOrders(values);
    var s := Sorted(values);
    forall v | v in values ensures s[0] <= v {
      assert v in multiset(values);
      assert v in multiset(s);
      var k :| 0 <= k < |s| && s[k] == v;
    }
  }

  // ---------- The bootstrap interval ----------

  predicate Within(values: seq<real>, lo: real, hi: real) {
    forall i :: 0 <= i < |values| ==> lo <= values[i] <= hi
  }

  lemma {:induction false} PercentileWithin(values: seq<real>, q: real, lo: real, hi: real)
    requires values != [] && 0.0 <= q <= 1.0 && Within(values, lo, hi)
    ensures lo <= Percentile(values, q) <= hi
  {
    PercentileMonotone(values, 0.0, q);
    PercentileMonotone(values, q, 1.0);
    PercentileEnds(values);
    SortedOrders(values);
    var s := Sorted(values);
    assert s[0] in multiset(values) && s[|s| - 1] in multiset(values);
  }

  lemma {:induction false} AllWithin(values: seq<real>, lo: real, hi: real)
    requires values != [] && lo == Percentile(values, 0.0) && hi == Max(values)
    ensures Within(values, lo, hi)
  {
    PercentileEnds(values);
    FirstIsMin(values);
    hide Percentile, Sorted, Max;
    forall i | 0 <= i < |values| ensures lo <= values[i] <= hi {
      assert values[i] in values;
    }
  }

  /** The values at the picked indices. */
  function Resample(values: seq<real>, picks: seq<nat>): (sample: seq<real>)
    requires forall i :: 0 <= i < |picks| ==> picks[i] < |values|
    ensures |sample| == |picks| && forall i :: 0 <= i < |picks| ==> sample[i] == values[picks[i]]
  {
    seq(|picks|, i requires 0 <= i < |picks| => values[picks[i]])
  }

  /** The medians of the first resamples. */
  ghost predicate MediansSoFar(values: seq<real>, picks: seq<seq<nat>>, medians: seq<real>)
    requires values != [] && |medians| <= |picks|
    requires forall r :: 0 <= r < |picks| ==> |picks[r]| == |values|
    requires forall r, i :: 0 <= r < |picks| && 0 <= i < |picks[r]| ==> picks[r][i] < |values|
  {
    forall r :: 0 <= r < |medians| ==> medians[r] == Median(Resample(values, picks[r]))
  }

  lemma {:induction false} NoMedians(values: seq<real>, picks: seq<seq<nat>>, least: real, most: real)
    requires values != []
    requires forall r :: 0 <= r < |picks| ==> |picks[r]| == |values|
    requires forall r, i :: 0 <= r < |picks| && 0 <= i < |picks[r]| ==> picks[r][i] < |values|
    ensures MediansSoFar(values, picks, []) && Within([], least, most)
  {
  }

  lemma {:induction false} OneMoreMedian(values: seq<real>, picks: seq<seq<nat>>, medians: seq<real>, least: real, most: real)
    requires values != [] && |medians| < |picks|
    requires forall r :: 0 <= r < |picks| ==> |picks[r]| == |values|
    requires forall r, i :: 0 <= r < |picks| && 0 <= i < |picks[r]| ==> picks[r][i] < |values|
    requires MediansSoFar(values, picks, medians) && Within(medians, least, most)
    requires least <= Median(Resample(values, picks[|medians|])) <= most
    ensures var more := medians + [Median(Resample(values, picks[|medians|]))];
      MediansSoFar(values, picks, more) && Within(more, least, most)
  {
    hide Median, Resample;
  }

  lemma {:induction false} SampleWithin(values: seq<real>, pick: seq<nat>, least: real, most: real)
    requires pick != [] && (forall i :: 0 <= i < |pick| ==> pick[i] < |values|) && Within(values, least, most)
    ensures least <= Median(Resample(values, pick)) <= most
  {
    hide Percentile, Median;
    var sample := Resample(values, pick);
    assert Within(sample, least, most);
    MedianIsMiddlePercentile(sample);
    PercentileWithin(sample, 0.5, least, most);
  }

  /** bootstrap_median_ci; `picks` are the random indices of each resampling. */
  method BootstrapMedianCi(values: seq<real>, picks: seq<seq<nat>>) returns (lo: real, hi: real, ghost medians: seq<real>)
    requires values != [] && picks != []
    requires forall r :: 0 <= r < |picks| ==> |picks[r]| == |values|
    requires forall r, i :: 0 <= r < |picks| && 0 <= i < |picks[r]| ==> picks[r][i] < |values|
    ensures Percentile(values, 0.0) <= lo <= hi <= Max(values)
    ensures |medians| == |picks| && MediansSoFar(values, picks, medians)
    ensures lo == Percentile(medians, 0.025) && hi == Percentile(medians, 0.975)
  {
    AllWithin(values, Percentile(values, 0.0), Max(values));
    ghost var least, most := Percentile(values, 0.0), Max(values);
    hide Percentile, Sorted, Median, Max, At, Resample, MediansSoFar, Within;
    NoMedians(values, picks, least, most);
    var found := [];
    for r := 0 to |picks|
      invariant |found| == r && Within(found, least, most) && MediansSoFar(values, picks, found)
    {
      var sample := Resample(values, picks[r]);
      SampleWithin(values, picks[r], least, most);
      OneMoreMedian(values, picks, found, least, most);
      found := found + [Median(sample)];
    }
    PercentileWithin(found, 0.025, least, most);
    PercentileWithin(found, 0.975, least, most);
    PercentileMonotone(found, 0.025, 0.975);
    return Percentile(found, 0.025), Percentile(found, 0.975), found;
  }
}
