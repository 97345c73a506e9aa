/**
 * The cosine similarity of backend/src/services/rag.service.ts (`cosineSimilarity`).
 *
 * Embeddings are vectors of reals. Dafny has no square root, so a similarity is
 * kept as the three sums the source accumulates (dot product and the two squared
 * norms); the source's result dot / (sqrt(normA) * sqrt(normB)) is any real `c`
 * with `IsValue(s, c)`. Comparisons are made on the signed square `Key(s) = c * |c|`,
 * which orders scores exactly as `c` does.
 */
module VectorSimilarity {

  type Vector = seq<real>

  /** The sum of a[i] * b[i], accumulated from the first position to the last. */
  function Dot(a: Vector, b: Vector): real
    requires |a| == |b|
    decreases |a|
  {
    if |a| == 0 then 0.0 else Dot(a[..|a| - 1], b[..|b| - 1]) + a[|a| - 1] * b[|b| - 1]
  }

  lemma {:induction false} DotSymmetric(a: Vector, b: Vector)
    requires |a| == |b|
    ensures Dot(a, b) == Dot(b, a)
  {
    if |a| > 0 {
      DotSymmetric(a[..|a| - 1], b[..|b| - 1]);
    }
  }

  /** A squared norm is never negative. */
  lemma {:induction false} SquaredNormNonNegative(a: Vector)
    ensures Dot(a, a) >= 0.0
  {
    if |a| > 0 {
      SquaredNormNonNegative(a[..|a| - 1]);
      assert a[|a| - 1] * a[|a| - 1] >= 0.0;
    }
  }

  /** A similarity: `Zero` for the two guarded cases, otherwise the three accumulated sums. */
  datatype Score = Zero | Cosine(dot: real, sqNormA: real, sqNormB: real)

  /** The denominator of a `Cosine` score is positive. */
  predicate WellFormed(s: Score) {
    s.Cosine? ==> s.sqNormA > 0.0 && s.sqNormB > 0.0
  }

  /**
   * `c` is the real number the source computes for `s`: 0 for `Zero`, and for
   * `Cosine(d, x, y)` the number with the sign of `d` and c * c * x * y == d * d,
   * that is c == d / (sqrt(x) * sqrt(y)).
   */
  ghost predicate IsValue(s: Score, c: real) {
    match s
    case Zero => c == 0.0
    case Cosine(d, x, y) => c * c * (x * y) == d * d && (c >= 0.0 <==> d >= 0.0)
  }

  function Abs(x: real): real { if x < 0.0 then -x else x }

  /** The signed square of the cosine, d * |d| / (x * y). */
  function Key(s: Score): real {
    match s
    case Zero => 0.0
    case Cosine(d, x, y) => if x * y > 0.0 then d * Abs(d) / (x * y) else 0.0
  }

  /**
   * The source's `similarity > 0.6`. Since Key is the signed square of the cosine,
   * the threshold is 0.6 * 0.6.
   */
  predicate Relevant(s: Score) {
    Key(s) > 0.36
  }

  /**
   * The specification of `cosineSimilarity`: 0 for vectors of different lengths and
   * 0 when either norm is 0, so that the denominator is never 0.
   */
  function Similarity(a: Vector, b: Vector): (s: Score)
    ensures WellFormed(s)
    ensures |a| != |b| ==> s == Zero
    ensures |a| == |b| && (Dot(a, a) == 0.0 || Dot(b, b) == 0.0) ==> s == Zero
  {
    SquaredNormNonNegative(a);
    SquaredNormNonNegative(b);
    if |a| != |b| then Zero
    else if Dot(a, a) == 0.0 || Dot(b, b) == 0.0 then Zero
    else Cosine(Dot(a, b), Dot(a, a), Dot(b, b))
  }

  /** `cosineSimilarity`: one pass accumulating the three sums, then the two guards. */
  method CosineSimilarity(a: Vector, b: Vector) returns (s: Score)
    ensures s == Similarity(a, b)
  {
    if |a| != |b| {
      return Zero;
    }
    var dot, normA, normB := 0.0, 0.0, 0.0;
    var i := 0;
    while i < |a|
      invariant 0 <= i <= |a|
      invariant dot == Dot(a[..i], b[..i])
      invariant normA == Dot(a[..i], a[..i])
      invariant normB == Dot(b[..i], b[..i])
    {
      assert a[..i + 1][..i] == a[..i];
      assert b[..i + 1][..i] == b[..i];
      dot := dot + a[i] * b[i];
      normA := normA + a[i] * a[i];
      normB := normB + b[i] * b[i];
      i := i + 1;
    }
    assert a[..|a|] == a;
    assert b[..|b|] == b;
    // sqrt(normA) * sqrt(normB) is 0 exactly when one of the squared norms is 0
    if normA == 0.0 || normB == 0.0 {
      return Zero;
    }
    return Cosine(dot, normA, normB);
  }

  /** The key of a score is the signed square of its value. */
  lemma KeyOfValue(s: Score, c: real)
    requires WellFormed(s) && IsValue(s, c)
    ensures Key(s) == c * Abs(c)
  {
    match s
    case Zero =>
    case Cosine(d, x, y) =>
      var n := x * y;
      assert n > 0.0 by {
        assert x > 0.0 && y > 0.0;
      }
      assert d * d / n == c * c by {
        assert d * d == (c * c) * n;
      }
      if d >= 0.0 {
        assert d * Abs(d) == d * d;
      } else {
        assert d * Abs(d) == -(d * d);
        assert -(d * d) / n == -(d * d / n);
      }
  }

  /** `c * |c|` is strictly increasing. */
  lemma SignedSquareMonotone(c1: real, c2: real)
    ensures c1 < c2 ==> c1 * Abs(c1) < c2 * Abs(c2)
  {
    if c1 < c2 {
      if c1 >= 0.0 {
        assert c1 * c1 <= c1 * c2 < c2 * c2;
      } else if c2 <= 0.0 {
        var p, q := -c2, -c1;
        assert 0.0 <= p < q;
        assert p * p <= p * q < q * q;
        assert c1 * Abs(c1) == -(q * q);
        assert c2 * Abs(c2) == -(p * p);
      }
    }
  }

  /** A score is relevant exactly when its value exceeds 0.6. */
  lemma RelevantIffAboveThreshold(s: Score, c: real)
    requires WellFormed(s) && IsValue(s, c)
    ensures Relevant(s) <==> c > 0.6
  {
    KeyOfValue(s, c);
    assert 0.6 * Abs(0.6) == 0.36;
    SignedSquareMonotone(c, 0.6);
    SignedSquareMonotone(0.6, c);
  }

  /** A similarity of exactly 0.6 is not relevant: the floor is strict. */
  lemma ThresholdExcluded(s: Score)
    requires WellFormed(s) && IsValue(s, 0.6)
    ensures !Relevant(s)
  {
    RelevantIffAboveThreshold(s, 0.6);
  }

  /** Ordering by key is ordering by value, in both directions. */
  lemma KeyOrderIsValueOrder(s1: Score, c1: real, s2: Score, c2: real)
    requires WellFormed(s1) && IsValue(s1, c1)
    requires WellFormed(s2) && IsValue(s2, c2)
    ensures Key(s1) >= Key(s2) <==> c1 >= c2
  {
    KeyOfValue(s1, c1);
    KeyOfValue(s2, c2);
    SignedSquareMonotone(c1, c2);
    SignedSquareMonotone(c2, c1);
  }

  /** The similarity does not depend on the order of its arguments. */
  lemma SimilaritySymmetric(a: Vector, b: Vector)
    ensures Key(Similarity(a, b)) == Key(Similarity(b, a))
  {
    if |a| == |b| {
      DotSymmetric(a, b);
      var x, y := Dot(a, a), Dot(b, b);
      assert x * y == y * x;
    }
  }

  /** A vector with a non-zero norm has similarity 1 with itself. */
  lemma SelfSimilarityIsOne(a: Vector)
    requires Dot(a, a) != 0.0
    ensures Key(Similarity(a, a)) == 1.0
    ensures IsValue(Similarity(a, a), 1.0)
  {
    SquaredNormNonNegative(a);
    var n := Dot(a, a);
    assert Similarity(a, a) == Cosine(n, n, n);
    assert IsValue(Cosine(n, n, n), 1.0);
    KeyOfValue(Cosine(n, n, n), 1.0);
  }

  /** One more coordinate keeps the Cauchy-Schwarz inequality. */
  lemma CauchySchwarzStep(sqA: real, sqB: real, dot: real, x: real, y: real)
    requires sqA >= 0.0 && sqB >= 0.0 && dot * dot <= sqA * sqB
    ensures (dot + x * y) * (dot + x * y) <= (sqA + x * x) * (sqB + y * y)
  {
    // the cross term 2·dot·x·y is at most sqA·y² + sqB·x²
    var gap := sqA * (y * y) + sqB * (x * x) - 2.0 * dot * (x * y);
    if sqA == 0.0 {
      if dot > 0.0 {
        assert dot * dot > 0.0;
      } else if dot < 0.0 {
        assert (-dot) * (-dot) > 0.0;
      }
      assert sqB * (x * x) >= 0.0;
    } else {
      var u := sqA * y - dot * x;
      assert sqA * gap == u * u + (sqA * sqB - dot * dot) * (x * x);
      assert u * u >= 0.0;
      assert (sqA * sqB - dot * dot) * (x * x) >= 0.0;
      assert sqA * gap >= 0.0;
    }
    assert gap >= 0.0;
    assert (dot + x * y) * (dot + x * y) == dot * dot + 2.0 * dot * (x * y) + (x * y) * (x * y);
    assert (sqA + x * x) * (sqB + y * y) == sqA * sqB + sqA * (y * y) + sqB * (x * x) + (x * x) * (y * y);
  }

  /** The Cauchy-Schwarz inequality for the accumulated sums: dot² ≤ |a|²·|b|². */
  lemma {:induction false} CauchySchwarz(a: Vector, b: Vector)
    requires |a| == |b|
    ensures Dot(a, b) * Dot(a, b) <= Dot(a, a) * Dot(b, b)
  {
    if |a| > 0 {
      var n := |a| - 1;
      CauchySchwarz(a[..n], b[..n]);
      SquaredNormNonNegative(a[..n]);
      SquaredNormNonNegative(b[..n]);
      CauchySchwarzStep(Dot(a[..n], a[..n]), Dot(b[..n], b[..n]), Dot(a[..n], b[..n]), a[n], b[n]);
    }
  }

  /** Every similarity the source computes is a cosine: its value, and so its key, lies in [-1, 1]. */
  lemma SimilarityBounded(a: Vector, b: Vector, c: real)
    requires IsValue(Similarity(a, b), c)
    ensures -1.0 <= c <= 1.0
    ensures -1.0 <= Key(Similarity(a, b)) <= 1.0
  {
    var s := Similarity(a, b);
    if s.Cosine? {
      CauchySchwarz(a, b);
    }
    ValueBounded(s, c);
  }

  /** A score whose dot product is at most the product of the norms has a value in [-1, 1]. */
  lemma ValueBounded(s: Score, c: real)
    requires WellFormed(s) && IsValue(s, c)
    requires s.Cosine? ==> s.dot * s.dot <= s.sqNormA * s.sqNormB
    ensures -1.0 <= c <= 1.0
    ensures -1.0 <= Key(s) <= 1.0
  {
    KeyOfValue(s, c);
    if s.Cosine? {
      var n := s.sqNormA * s.sqNormB;
      assert n > 0.0;
      assert c * c * n <= n;
      AtMostOneScaled(c * c, n);
      SquareAtMostOne(c);
    }
    if c >= 0.0 {
      assert c * Abs(c) == c * c;
      assert c * c <= 1.0 * c;
    } else {
      assert c * Abs(c) == -(c * c);
      assert (-c) * (-c) <= 1.0 * (-c);
    }
  }

  /** Dividing out a positive factor. */
  lemma AtMostOneScaled(q: real, n: real)
    requires n > 0.0 && q * n <= n
    ensures q <= 1.0
  {
  }

  /** A number whose square is at most 1 lies in [-1, 1]. */
  lemma SquareAtMostOne(c: real)
    requires c * c <= 1.0
    ensures -1.0 <= c <= 1.0
  {
  }
}
