/** The latency percentile of the service-level snapshot. */
module Percentile {
  import opened Values
  import opened Text

  // ----- `sorted`

  function Insert(sorted: seq<int>, x: int): seq<int> {
    if sorted == [] || sorted[|sorted| - 1] <= x then sorted + [x]
    else Insert(sorted[..|sorted| - 1], x) + [sorted[|sorted| - 1]]
  }

  function Sorted(s: seq<int>): seq<int> {
    if s == [] then [] else Insert(Sorted(s[..|s| - 1]), s[|s| - 1])
  }

  ghost predicate Rising(s: seq<int>) {
    forall i, j :: 0 <= i <= j < |s| ==> s[i] <= s[j]
  }

  /** How many of the values are at most `v`. */
  ghost function CountUpTo(s: seq<int>, v: int): nat {
    if s == [] then 0 else CountUpTo(s[..|s| - 1], v) + (if s[|s| - 1] <= v then 1 else 0)
  }

  lemma CountOneMore(s: seq<int>, x: int, v: int)
    ensures CountUpTo(s + [x], v) == CountUpTo(s, v) + (if x <= v then 1 else 0)
  {
    assert (s + [x])[..|s|] == s;
  }

  lemma {:induction false} InsertKeepsRising(sorted: seq<int>, x: int)
    requires Rising(sorted)
    ensures Rising(Insert(sorted, x)) && |Insert(sorted, x)| == |sorted| + 1
    ensures forall i :: 0 <= i <= |sorted| ==> Insert(sorted, x)[i] == x || Insert(sorted, x)[i] in sorted
  {
    if sorted != [] && sorted[|sorted| - 1] > x {
      InsertKeepsRising(sorted[..|sorted| - 1], x);
    }
  }

  lemma {:induction false} InsertCounts(sorted: seq<int>, x: int, v: int)
    ensures CountUpTo(Insert(sorted, x), v) == CountUpTo(sorted, v) + (if x <= v then 1 else 0)
  {
    if sorted == [] || sorted[|sorted| - 1] <= x {
      CountOneMore(sorted, x, v);
    } else {
      var n := |sorted| - 1;
      InsertCounts(sorted[..n], x, v);
      CountOneMore(Insert(sorted[..n], x), sorted[n], v);
    }
  }

  lemma {:induction false} SortedRises(s: seq<int>)
    ensures Rising(Sorted(s)) && |Sorted(s)| == |s|
  {
    if s != [] {
      SortedRises(s[..|s| - 1]);
      InsertKeepsRising(Sorted(s[..|s| - 1]), s[|s| - 1]);
    }
  }

  lemma {:induction false} SortedCounts(s: seq<int>, v: int)
    ensures CountUpTo(Sorted(s), v) == CountUpTo(s, v)
  {
    if s != [] {
      SortedCounts(s[..|s| - 1], v);
      InsertCounts(Sorted(s[..|s| - 1]), s[|s| - 1], v);
    }
  }

  lemma {:induction false} CountInRising(s: seq<int>, v: int, k: nat)
    requires Rising(s) && k < |s|
    ensures s[k] <= v <==> k < CountUpTo(s, v)
    ensures CountUpTo(s, v) <= |s|
    decreases |s|
  {
    var n := |s| - 1;
    var front := s[..n];
    if n > 0 {
      CountInRising(front, v, if k < n then k else n - 1);
    }
  }

  /** The order statistics are determined by counting: place `k` holds at most `v` exactly if more than `k` of
      the unsorted values are at most `v`. */
  lemma OrderStatistic(s: seq<int>, k: nat, v: int)
    requires k < |s|
    ensures |Sorted(s)| == |s|
    ensures Sorted(s)[k] <= v <==> k < CountUpTo(s, v)
  {
    SortedRises(s);
    SortedCounts(s, v);
    CountInRising(Sorted(s), v, k);
  }

  lemma {:induction false} RaisingLowersCounts(a: seq<int>, b: seq<int>, v: int)
    requires |a| == |b| && forall i :: 0 <= i < |a| ==> a[i] <= b[i]
    ensures CountUpTo(b, v) <= CountUpTo(a, v)
  {
    if a != [] {
      RaisingLowersCounts(a[..|a| - 1], b[..|b| - 1], v);
    }
  }

  /** Raising values never lowers an order statistic. */
  lemma RaisingRaisesOrder(a: seq<int>, b: seq<int>, k: nat)
    requires |a| == |b| && k < |a| && forall i :: 0 <= i < |a| ==> a[i] <= b[i]
    ensures |Sorted(a)| == |Sorted(b)| == |a| && Sorted(a)[k] <= Sorted(b)[k]
  {
    SortedRises(b);
    var v := Sorted(b)[k];
    OrderStatistic(b, k, v);
    RaisingLowersCounts(a, b, v);
    OrderStatistic(a, k, v);
  }

  lemma {:induction false} CountConcat(a: seq<int>, b: seq<int>, v: int)
    ensures CountUpTo(a + b, v) == CountUpTo(a, v) + CountUpTo(b, v)
  {
    if b == [] {
      assert a + b == a;
    } else {
      assert (a + b)[..|a + b| - 1] == a + b[..|b| - 1];
      CountConcat(a, b[..|b| - 1], v);
    }
  }

  lemma CountSplit(b: seq<int>, i: nat, v: int)
    requires i < |b|
    ensures CountUpTo(b, v) == CountUpTo(b[..i] + b[i + 1..], v) + (if b[i] <= v then 1 else 0)
  {
    assert b == (b[..i] + [b[i]]) + b[i + 1..];
    CountConcat(b[..i] + [b[i]], b[i + 1..], v);
    CountOneMore(b[..i], b[i], v);
    CountConcat(b[..i], b[i + 1..], v);
  }

  /** Takes one occurrence of `x` out of a sequence. */
  lemma TakeOut(b: seq<int>, x: int) returns (i: nat)
    requires x in multiset(b)
    ensures i < |b| && b[i] == x && multiset(b[..i] + b[i + 1..]) == multiset(b) - multiset{x}
  {
    i :| 0 <= i < |b| && b[i] == x;
    assert b == b[..i] + [x] + b[i + 1..];
    assert multiset(b) == multiset(b[..i]) + multiset{x} + multiset(b[i + 1..]);
  }

  lemma MultisetOfFront(a: seq<int>)
    requires a != []
    ensures multiset(a[..|a| - 1]) == multiset(a) - multiset{a[|a| - 1]} && a[|a| - 1] in multiset(a)
  {
    assert a == a[..|a| - 1] + [a[|a| - 1]];
  }

  lemma NothingInEmpty(b: seq<int>)
    requires multiset(b) == multiset{}
    ensures b == []
  {
    assert |multiset(b)| == |b|;
  }

  lemma {:induction false} CountOfPermutation(a: seq<int>, b: seq<int>, v: int)
    requires multiset(a) == multiset(b)
    ensures CountUpTo(a, v) == CountUpTo(b, v)
  {
    if a == [] {
      NothingInEmpty(b);
    } else {
      var n := |a| - 1;
      MultisetOfFront(a);
      var i := TakeOut(b, a[n]);
      CountOfPermutation(a[..n], b[..i] + b[i + 1..], v);
      CountSplit(b, i, v);
    }
  }

  // ----- interpolation

  /** The two neighbours of a position and how far it is from the lower one. */
  datatype Place = Place(lo: nat, hi: nat, rest: real)

  function Position(last: nat, fraction: real): real {
    last as real * fraction
  }

  /** The place of a fraction among positions 0 to `last`. */
  function PlaceOf(last: nat, fraction: real): (p: Place)
    requires 0.0 <= fraction <= 1.0
    ensures p.lo <= p.hi <= last && p.hi <= p.lo + 1 && 0.0 <= p.rest < 1.0
    ensures p.lo as real + p.rest == Position(last, fraction)
    ensures p.hi == p.lo ==> p.lo == last
  {
    PositionWithin(last, fraction);
    var pos := Position(last, fraction);
    var lo := Truncate(pos);
    Place(lo, if lo + 1 < last then lo + 1 else last, pos - lo as real)
  }

  lemma PositionWithin(n: nat, fraction: real)
    requires 0.0 <= fraction <= 1.0
    ensures 0.0 <= Position(n, fraction) <= n as real
  {
    ProductInOrder(n as real, 0.0, fraction);
    ProductInOrder(n as real, fraction, 1.0);
  }

  function Between(ordered: seq<int>, p: Place): real
    requires p.lo < |ordered| && p.hi < |ordered|
  {
    ordered[p.lo] as real + (ordered[p.hi] - ordered[p.lo]) as real * p.rest
  }

  /** `_percentile`, for the fractions from 0 to 1 that make sense. */
  function PercentileOf(values: seq<int>, fraction: real): Option<int>
    requires 0.0 <= fraction <= 1.0
  {
    if values == [] then None
    else
      SortedRises(values);
      var ordered := Sorted(values);
      if |ordered| == 1 then Some(ordered[0])
      else Some(Truncate(Between(ordered, PlaceOf(|ordered| - 1, fraction))))
  }

  // ----- what the interpolation keeps

  lemma TruncateKeepsOrder(x: real, y: real)
    requires x <= y
    ensures Truncate(x) <= Truncate(y)
  {}

  lemma TruncateOfInt(n: int)
    ensures Truncate(n as real) == n
  {}

  /** A weighted mean lies between its ends, and rises with the ends and with the weight. */
  lemma MeanWithin(a: real, b: real, t: real)
    requires a <= b && 0.0 <= t <= 1.0
    ensures a <= a + (b - a) * t <= b
  {
    Product(b - a, t);
    Product(b - a, 1.0 - t);
    assert (b - a) * (1.0 - t) == (b - a) - (b - a) * t;
  }

  lemma Product(x: real, y: real)
    requires x >= 0.0 && y >= 0.0
    ensures x * y >= 0.0
  {}

  lemma MeanRisesWithEnds(a: real, b: real, c: real, d: real, t: real)
    requires a <= c && b <= d && 0.0 <= t <= 1.0
    ensures a + (b - a) * t <= c + (d - c) * t
  {
    Product(c - a, 1.0 - t);
    Product(d - b, t);
    assert (c + (d - c) * t) - (a + (b - a) * t) == (c - a) * (1.0 - t) + (d - b) * t;
  }

  lemma MeanRisesWithWeight(a: real, b: real, t: real, u: real)
    requires a <= b && t <= u
    ensures a + (b - a) * t <= a + (b - a) * u
  {
    Product(b - a, u - t);
    assert (b - a) * u - (b - a) * t == (b - a) * (u - t);
  }

  lemma BetweenNeighbours(ordered: seq<int>, p: Place)
    requires Rising(ordered) && p.lo <= p.hi < |ordered| && 0.0 <= p.rest < 1.0
    ensures ordered[p.lo] as real <= Between(ordered, p) <= ordered[p.hi] as real
  {
    MeanWithin(ordered[p.lo] as real, ordered[p.hi] as real, p.rest);
  }

  /** The result lies between the two neighbouring order statistics, truncation included. */
  lemma {:induction false} PercentileWithin(values: seq<int>, fraction: real)
    requires |values| >= 2 && 0.0 <= fraction <= 1.0
    ensures |Sorted(values)| == |values|
    ensures var p := PlaceOf(|values| - 1, fraction);
            PercentileOf(values, fraction).Some? &&
            Sorted(values)[p.lo] <= PercentileOf(values, fraction).value <= Sorted(values)[p.hi]
  {
    SortedRises(values);
    var ordered, p := Sorted(values), PlaceOf(|values| - 1, fraction);
    BetweenNeighbours(ordered, p);
    TruncateKeepsOrder(ordered[p.lo] as real, Between(ordered, p));
    TruncateKeepsOrder(Between(ordered, p), ordered[p.hi] as real);
    TruncateOfInt(ordered[p.lo]);
    TruncateOfInt(ordered[p.hi]);
  }

  lemma WholePlace(p: Place, k: nat)
    requires p.lo as real + p.rest == k as real && 0.0 <= p.rest < 1.0
    ensures p.lo == k && p.rest == 0.0
  {}

  /** At a position that is a whole number the result is that order statistic, so fraction 0 gives the
      smallest value and fraction 1 the largest. */
  lemma {:induction false} PercentileAtPlace(values: seq<int>, fraction: real, k: nat)
    requires 0.0 <= fraction <= 1.0 && values != [] && var last: nat := |values| - 1;
             k <= last && Position(last, fraction) == k as real
    ensures |Sorted(values)| == |values| && PercentileOf(values, fraction) == Some(Sorted(values)[k])
  {
    SortedRises(values);
    if |values| >= 2 {
      var p := PlaceOf(|values| - 1, fraction);
      WholePlace(p, k);
      BetweenAtPlace(Sorted(values), p);
      TruncateOfInt(Sorted(values)[k]);
    }
  }

  lemma BetweenAtPlace(ordered: seq<int>, p: Place)
    requires p.lo < |ordered| && p.hi < |ordered| && p.rest == 0.0
    ensures Between(ordered, p) == ordered[p.lo] as real
  {}

  /** The result depends on the values only, not on the order in which they arrive. */
  lemma OrderDoesNotMatter(a: seq<int>, b: seq<int>, fraction: real)
    requires multiset(a) == multiset(b) && 0.0 <= fraction <= 1.0
    ensures PercentileOf(a, fraction) == PercentileOf(b, fraction)
  {
    assert |a| == |multiset(a)| == |multiset(b)| == |b|;
    SortedRises(a);
    SortedRises(b);
    forall k | 0 <= k < |a| ensures Sorted(a)[k] == Sorted(b)[k] {
      var x, y := Sorted(a)[k], Sorted(b)[k];
      OrderStatistic(a, k, x);
      OrderStatistic(a, k, y);
      OrderStatistic(b, k, x);
      OrderStatistic(b, k, y);
      CountOfPermutation(a, b, x);
      CountOfPermutation(a, b, y);
    }
    assert Sorted(a) == Sorted(b);
  }

  /** The result never falls when latencies are raised. */
  lemma RaisingRaisesPercentile(a: seq<int>, b: seq<int>, fraction: real)
    requires a != [] && |a| == |b| && 0.0 <= fraction <= 1.0
    requires forall i :: 0 <= i < |a| ==> a[i] <= b[i]
    ensures PercentileOf(a, fraction).Some? && PercentileOf(b, fraction).Some?
    ensures PercentileOf(a, fraction).value <= PercentileOf(b, fraction).value
  {
    SortedRises(a);
    SortedRises(b);
    if |a| == 1 {
      RaisingRaisesOrder(a, b, 0);
    } else {
      var p := PlaceOf(|a| - 1, fraction);
      RaisingRaisesOrder(a, b, p.lo);
      RaisingRaisesOrder(a, b, p.hi);
      MeanRisesWithEnds(Sorted(a)[p.lo] as real, Sorted(a)[p.hi] as real, Sorted(b)[p.lo] as real,
                        Sorted(b)[p.hi] as real, p.rest);
      TruncateKeepsOrder(Between(Sorted(a), p), Between(Sorted(b), p));
    }
  }

  lemma PlacesInOrder(last: nat, low: real, high: real)
    requires 0.0 <= low <= high <= 1.0
    ensures var p, q := PlaceOf(last, low), PlaceOf(last, high);
            (p.lo == q.lo && p.hi == q.hi && p.rest <= q.rest) || p.hi <= q.lo
  {
    var p, q, x, y := PlaceOf(last, low), PlaceOf(last, high), Position(last, low), Position(last, high);
    PositionsRise(last, low, high);
    PositionsInOrder(p, q, x, y, last);
  }

  lemma PositionsRise(last: nat, low: real, high: real)
    requires low <= high
    ensures Position(last, low) <= Position(last, high)
  {
    ProductInOrder(last as real, low, high);
  }

  lemma PositionsInOrder(p: Place, q: Place, x: real, y: real, last: nat)
    requires x <= y && p.lo as real + p.rest == x && q.lo as real + q.rest == y
    requires 0.0 <= p.rest < 1.0 && 0.0 <= q.rest < 1.0
    requires p.lo <= p.hi <= last && p.hi <= p.lo + 1 && (p.hi == p.lo ==> p.lo == last)
    requires q.lo <= q.hi <= last && q.hi <= q.lo + 1 && (q.hi == q.lo ==> q.lo == last)
    ensures (p.lo == q.lo && p.hi == q.hi && p.rest <= q.rest) || p.hi <= q.lo
  {
    assert p.lo as real < q.lo as real + 1.0;
  }

  lemma ProductInOrder(n: real, low: real, high: real)
    requires n >= 0.0 && low <= high
    ensures n * low <= n * high
  {
    Product(n, high - low);
    assert n * (high - low) == n * high - n * low;
  }

  /** The percentile rises with the fraction: p50 is at most p95. */
  lemma PercentileRisesWithFraction(values: seq<int>, low: real, high: real)
    requires values != [] && 0.0 <= low <= high <= 1.0
    ensures PercentileOf(values, low).Some? && PercentileOf(values, high).Some?
    ensures PercentileOf(values, low).value <= PercentileOf(values, high).value
  {
    SortedRises(values);
    if |values| >= 2 {
      var ordered, p, q := Sorted(values), PlaceOf(|values| - 1, low), PlaceOf(|values| - 1, high);
      PlacesInOrder(|values| - 1, low, high);
      if p.hi <= q.lo {
        BetweenNeighbours(ordered, p);
        BetweenNeighbours(ordered, q);
      } else {
        MeanRisesWithWeight(ordered[p.lo] as real, ordered[p.hi] as real, p.rest, q.rest);
      }
      TruncateKeepsOrder(Between(ordered, p), Between(ordered, q));
    }
  }
}
