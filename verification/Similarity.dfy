/** Cosine similarity in its two forms, and the intent classifier built on it. */
module Similarity {
  import opened Values

  // ----- square roots

  /** `math.sqrt` on exact reals: any function that gives the non-negative root. */
  ghost predicate IsSquareRoot(root: real -> real) {
    forall x {:trigger root(x)} :: x >= 0.0 ==> root(x) >= 0.0 && root(x) * root(x) == x
  }

  lemma RootOfPositive(root: real -> real, x: real)
    requires IsSquareRoot(root) && x > 0.0
    ensures root(x) > 0.0
  {
    assert root(x) * root(x) == x;
  }

  lemma PositiveProduct(x: real, y: real, z: real)
    requires x > 0.0 && y > 0.0 && z == x * y
    ensures z > 0.0
  {}

  // ----- the sums

  ghost function Dot(a: seq<real>, b: seq<real>): real
    requires |a| == |b|
  {
    if a == [] then 0.0
    else Dot(a[..|a| - 1], b[..|b| - 1]) + a[|a| - 1] * b[|b| - 1]
  }

  lemma {:induction false} SquaresNotNegative(a: seq<real>)
    ensures Dot(a, a) >= 0.0
  {
    if a != [] {
      SquaresNotNegative(a[..|a| - 1]);
    }
  }

  /** The sum of (a[i] * y - b[i] * x)^2. */
  ghost function Gap(a: seq<real>, b: seq<real>, x: real, y: real): real
    requires |a| == |b|
  {
    if a == [] then 0.0
    else
      var t := a[|a| - 1] * y - b[|b| - 1] * x;
      Gap(a[..|a| - 1], b[..|b| - 1], x, y) + t * t
  }

  lemma {:induction false} GapNotNegative(a: seq<real>, b: seq<real>, x: real, y: real)
    requires |a| == |b|
    ensures Gap(a, b, x, y) >= 0.0
  {
    if a != [] {
      GapNotNegative(a[..|a| - 1], b[..|b| - 1], x, y);
    }
  }

  lemma SquareOfDifference(p: real, q: real, x: real, y: real)
    ensures (p * y - q * x) * (p * y - q * x) == (p * p) * (y * y) - 2.0 * ((p * q) * (x * y)) + (q * q) * (x * x)
  {}

  lemma AddTerm(a: real, d: real, b: real, pp: real, pq: real, qq: real, xx: real, xy: real, yy: real)
    ensures (a + pp) * yy - 2.0 * ((d + pq) * xy) + (b + qq) * xx ==
            (a * yy - 2.0 * (d * xy) + b * xx) + (pp * yy - 2.0 * (pq * xy) + qq * xx)
  {}

  /** The gap, multiplied out. */
  ghost predicate Expanded(gap: real, aa: real, ab: real, bb: real, xx: real, xy: real, yy: real) {
    gap == aa * yy - 2.0 * (ab * xy) + bb * xx
  }

  lemma ExpandedOneMore(gap: real, aa: real, ab: real, bb: real, p: real, q: real, x: real, y: real)
    requires Expanded(gap, aa, ab, bb, x * x, x * y, y * y)
    ensures Expanded(gap + (p * y - q * x) * (p * y - q * x), aa + p * p, ab + p * q, bb + q * q, x * x, x * y, y * y)
  {
    SquareOfDifference(p, q, x, y);
    AddTerm(aa, ab, bb, p * p, p * q, q * q, x * x, x * y, y * y);
  }

  lemma {:induction false} GapExpanded(a: seq<real>, b: seq<real>, x: real, y: real)
    requires |a| == |b|
    ensures Expanded(Gap(a, b, x, y), Dot(a, a), Dot(a, b), Dot(b, b), x * x, x * y, y * y)
  {
    if a != [] {
      var n := |a| - 1;
      var f, g := a[..n], b[..n];
      GapExpanded(f, g, x, y);
      ExpandedOneMore(Gap(f, g, x, y), Dot(f, f), Dot(f, g), Dot(g, g), a[n], b[n], x, y);
    }
  }

  lemma CauchyStep(d: real, na: real, nb: real, x: real, y: real, gap: real)
    requires d * d <= na * nb && gap >= 0.0
    requires gap == na * (y * y) - 2.0 * (d * (x * y)) + nb * (x * x)
    ensures (d + x * y) * (d + x * y) <= (na + x * x) * (nb + y * y)
  {
    assert (d + x * y) * (d + x * y) == d * d + 2.0 * (d * (x * y)) + (x * y) * (x * y);
    assert (na + x * x) * (nb + y * y) == na * nb + na * (y * y) + nb * (x * x) + (x * x) * (y * y);
    assert (x * y) * (x * y) == (x * x) * (y * y);
  }

  /** Adding a coordinate `x`, `y` leaves the inequality true: the discriminant of `Gap` is not positive. */
  ghost predicate NoGap(d: real, na: real, nb: real, x: real, y: real) {
    na * (y * y) - 2.0 * (d * (x * y)) + nb * (x * x) >= 0.0
  }

  ghost predicate Bounded(d: real, na: real, nb: real) {
    d * d <= na * nb
  }

  lemma GapBound(a: seq<real>, b: seq<real>, x: real, y: real)
    requires |a| == |b|
    ensures NoGap(Dot(a, b), Dot(a, a), Dot(b, b), x, y)
  {
    GapNotNegative(a, b, x, y);
    GapExpanded(a, b, x, y);
  }

  lemma CauchyJoin(d: real, na: real, nb: real, x: real, y: real, xx: real, xy: real, yy: real)
    requires Bounded(d, na, nb) && NoGap(d, na, nb, x, y) && xx == x * x && xy == x * y && yy == y * y
    ensures Bounded(d + xy, na + xx, nb + yy)
  {
    CauchyStep(d, na, nb, x, y, na * (y * y) - 2.0 * (d * (x * y)) + nb * (x * x));
  }

  lemma {:induction false} DotsAreBounded(a: seq<real>, b: seq<real>)
    requires |a| == |b|
    ensures Bounded(Dot(a, b), Dot(a, a), Dot(b, b))
  {
    if a != [] {
      var n := |a| - 1;
      var x, y, f, g := a[n], b[n], a[..n], b[..n];
      DotsAreBounded(f, g);
      GapBound(f, g, x, y);
      CauchyJoin(Dot(f, g), Dot(f, f), Dot(g, g), x, y, x * x, x * y, y * y);
    }
  }

  /** Cauchy-Schwarz: the square of the dot product is at most the product of the squared norms. */
  lemma CauchySchwarz(a: seq<real>, b: seq<real>)
    requires |a| == |b|
    ensures Dot(a, b) * Dot(a, b) <= Dot(a, a) * Dot(b, b)
  {
    DotsAreBounded(a, b);
  }

  // ----- cosine

  function Normalised(dot: real, ra: real, rb: real): real
    requires ra > 0.0 && rb > 0.0
  {
    PositiveProduct(ra, rb, ra * rb);
    dot / (ra * rb)
  }

  /** The cosine of the angle between two vectors; 0 if the lengths differ or a vector is all zero. */
  ghost function Cosine(a: seq<real>, b: seq<real>, root: real -> real): real
    requires IsSquareRoot(root)
  {
    if |a| != |b| || Dot(a, a) == 0.0 || Dot(b, b) == 0.0 then 0.0
    else
      SquaresNotNegative(a);
      SquaresNotNegative(b);
      RootOfPositive(root, Dot(a, a));
      RootOfPositive(root, Dot(b, b));
      Normalised(Dot(a, b), root(Dot(a, a)), root(Dot(b, b)))
  }

  lemma QuotientWithin(d: real, r: real)
    requires r > 0.0 && -r <= d <= r
    ensures -1.0 <= d / r <= 1.0
  {}

  lemma RootBound(d: real, ra: real, rb: real)
    requires ra > 0.0 && rb > 0.0 && d * d <= (ra * ra) * (rb * rb)
    ensures ra * rb > 0.0 && -(ra * rb) <= d <= ra * rb
  {
    var r := ra * rb;
    assert (ra * ra) * (rb * rb) == r * r;
    if d > r {
      SquareGrows(r, d);
    } else if -d > r {
      SquareGrows(r, -d);
    }
  }

  lemma SquareGrows(r: real, d: real)
    requires 0.0 < r < d
    ensures r * r < d * d
  {}

  lemma NormalisedWithin(d: real, na: real, nb: real, ra: real, rb: real)
    requires Bounded(d, na, nb) && ra > 0.0 && rb > 0.0 && ra * ra == na && rb * rb == nb
    ensures -1.0 <= Normalised(d, ra, rb) <= 1.0
  {
    assert na * nb == (ra * ra) * (rb * rb);
    RootBound(d, ra, rb);
    QuotientWithin(d, ra * rb);
  }

  lemma RootsOfNorms(a: seq<real>, b: seq<real>, root: real -> real)
    requires IsSquareRoot(root) && Dot(a, a) != 0.0 && Dot(b, b) != 0.0
    ensures root(Dot(a, a)) > 0.0 && root(Dot(b, b)) > 0.0
    ensures root(Dot(a, a)) * root(Dot(a, a)) == Dot(a, a) && root(Dot(b, b)) * root(Dot(b, b)) == Dot(b, b)
  {
    SquaresNotNegative(a);
    SquaresNotNegative(b);
    RootOfPositive(root, Dot(a, a));
    RootOfPositive(root, Dot(b, b));
  }

  /** Every score lies between -1 and 1. */
  lemma CosineWithin(a: seq<real>, b: seq<real>, root: real -> real)
    requires IsSquareRoot(root)
    ensures -1.0 <= Cosine(a, b, root) <= 1.0
  {
    if |a| == |b| && Dot(a, a) != 0.0 && Dot(b, b) != 0.0 {
      RootsOfNorms(a, b, root);
      DotsAreBounded(a, b);
      NormalisedWithin(Dot(a, b), Dot(a, a), Dot(b, b), root(Dot(a, a)), root(Dot(b, b)));
    }
  }

  lemma DotOneMore(a: seq<real>, b: seq<real>, i: nat)
    requires |a| == |b| && i < |a|
    ensures Dot(a[..i + 1], b[..i + 1]) == Dot(a[..i], b[..i]) + a[i] * b[i]
  {
    assert a[..i + 1][..i] == a[..i] && b[..i + 1][..i] == b[..i];
  }

  /** The memory store's form: one loop with three accumulators. */
  method CosineByLoop(a: seq<real>, b: seq<real>, root: real -> real) returns (score: real)
    requires IsSquareRoot(root)
    ensures score == Cosine(a, b, root)
  {
    if |a| != |b| {
      return 0.0;
    }
    var dot, na, nb := 0.0, 0.0, 0.0;
    for i := 0 to |a|
      invariant dot == Dot(a[..i], b[..i]) && na == Dot(a[..i], a[..i]) && nb == Dot(b[..i], b[..i])
    {
      DotOneMore(a, b, i);
      DotOneMore(a, a, i);
      DotOneMore(b, b, i);
      dot := dot + a[i] * b[i];
      na := na + a[i] * a[i];
      nb := nb + b[i] * b[i];
    }
    assert a[..|a|] == a && b[..|b|] == b;
    if na == 0.0 || nb == 0.0 {
      return 0.0;
    }
    RootsOfNorms(a, b, root);
    return Normalised(dot, root(na), root(nb));
  }

  /** The router's form: `sum` over a generator, three times, and roots compared with zero. */
  ghost function RouterCosine(a: seq<real>, b: seq<real>, root: real -> real): real
    requires IsSquareRoot(root)
  {
    if |a| != |b| || a == [] then 0.0
    else
      SquaresNotNegative(a);
      SquaresNotNegative(b);
      var na, nb := root(Dot(a, a)), root(Dot(b, b));
      if na == 0.0 || nb == 0.0 then 0.0 else Normalised(Dot(a, b), na, nb)
  }

  lemma RootIsZero(root: real -> real, x: real)
    requires IsSquareRoot(root) && x >= 0.0
    ensures root(x) == 0.0 <==> x == 0.0
  {
    var r := root(x);
    assert r * r == x && r >= 0.0;
    if r > 0.0 {
      PositiveProduct(r, r, x);
    }
  }

  /** The two forms are the same function. */
  lemma CosinesAgree(a: seq<real>, b: seq<real>, root: real -> real)
    requires IsSquareRoot(root)
    ensures RouterCosine(a, b, root) == Cosine(a, b, root)
  {
    SquaresNotNegative(a);
    SquaresNotNegative(b);
    RootIsZero(root, Dot(a, a));
    RootIsZero(root, Dot(b, b));
  }

  // ----- the classifier

  /** Index `i` has the best score, beats the initial -1 and the threshold, and no earlier index is as good. */
  ghost predicate IsBestMatch(scores: seq<real>, threshold: real, i: nat) {
    && i < |scores| && scores[i] > -1.0 && scores[i] >= threshold
    && (forall j :: 0 <= j < |scores| ==> scores[j] <= scores[i])
    && (forall j :: 0 <= j < i ==> scores[j] < scores[i])
  }

  ghost function Scores(query: seq<real>, exemplars: seq<seq<real>>, root: real -> real): seq<real>
    requires IsSquareRoot(root)
  {
    seq(|exemplars|, i requires 0 <= i < |exemplars| => Cosine(query, exemplars[i], root))
  }

  /** `EmbeddingRouteStrategy.classify` on the embeddings of the question and of the catalog's exemplars:
      the first intent with the highest score, if that score is good enough. */
  method Classify(
    vectors: seq<seq<real>>, catalogSize: nat, root: real -> real, threshold: real)
    returns (best: Option<nat>)
    requires IsSquareRoot(root)
    ensures |vectors| != catalogSize + 1 ==> best.None?
    ensures |vectors| == catalogSize + 1 ==>
              var scores := Scores(vectors[0], vectors[1..], root);
              && (best.Some? ==> IsBestMatch(scores, threshold, best.value))
              && (best.None? <==> forall j :: 0 <= j < |scores| ==> scores[j] <= -1.0 || scores[j] < threshold)
  {
    if |vectors| != catalogSize + 1 {
      return None;
    }
    var query, exemplars := vectors[0], vectors[1..];
    ghost var scores := Scores(query, exemplars, root);
    var bestScore := -1.0;
    best := None;
    for i := 0 to |exemplars|
      invariant best.None? ==> bestScore == -1.0
      invariant best.Some? ==> best.value < i && bestScore == scores[best.value] > -1.0
      invariant forall j :: 0 <= j < i ==> scores[j] <= bestScore
      invariant best.Some? ==> forall j :: 0 <= j < best.value ==> scores[j] < bestScore
    {
      var score := CosineByLoop(query, exemplars[i], root);
      if score > bestScore {
        bestScore, best := score, Some(i);
      }
    }
    if best.None? || bestScore < threshold {
      best := None;
    }
  }
}
