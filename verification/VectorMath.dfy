// Dot products, normalisation and cosine similarity over the reals.
//
// The square root is a parameter, known only by its defining property.

module VectorMath {
  type Vector = seq<real>

  // Named so that equal operands are seen to give equal results.

  function Times(x: real, y: real): real { x * y }

  function Ratio(x: real, y: real): real
    requires y != 0.0
  {
    x / y
  }

  function Dot(a: Vector, b: Vector): real
    requires |a| == |b|
  {
    if a == [] then 0.0
    else
      var n := |a| - 1;
      Dot(a[..n], b[..n]) + Times(a[n], b[n])
  }

  function Scale(v: Vector, s: real): (r: Vector)
    ensures |r| == |v|
  {
    if v == [] then [] else Scale(v[..|v| - 1], s) + [Times(v[|v| - 1], s)]
  }

  ghost predicate IsSqrt(sqrt: real -> real) {
    forall x: real :: x >= 0.0 ==> sqrt(x) >= 0.0 && Times(sqrt(x), sqrt(x)) == x
  }

  /** Unit length, except that zero vectors are left untouched. */
  function Normalized(sqrt: real -> real, v: Vector): (r: Vector)
    ensures |r| == |v|
  {
    var norm := sqrt(Dot(v, v));
    if norm == 0.0 then v else Scale(v, Ratio(1.0, norm))
  }

  function Cosine(sqrt: real -> real, a: Vector, b: Vector): real {
    if |a| != |b| then 0.0
    else
      var normA, normB := sqrt(Dot(a, a)), sqrt(Dot(b, b));
      if normA == 0.0 || normB == 0.0 then 0.0
      else
        NonZeroProduct(normA, normB);
        Ratio(Dot(a, b), Times(normA, normB))
  }

  lemma NonZeroProduct(x: real, y: real)
    requires x != 0.0 && y != 0.0
    ensures Times(x, y) != 0.0
  {
  }

  method ScaleInPlace(v: array<real>, s: real)
    modifies v
    ensures v[..] == Scale(old(v[..]), s)
  {
    ghost var was := v[..];
    for i := 0 to v.Length
      invariant v[..i] == Scale(was[..i], s)
      invariant v[i..] == was[i..]
    {
      assert v[i] == was[i..][0];
      ScalePush(was[..i], v[i], s);
      assert was[..i + 1] == was[..i] + [v[i]];
      v[i] := Times(v[i], s);
      assert v[..i + 1] == v[..i] + [v[i]];
    }
    assert v[..v.Length] == v[..] && was[..v.Length] == was;
  }

  method NormalizeInPlace(sqrt: real -> real, v: array<real>)
    modifies v
    ensures v[..] == Normalized(sqrt, old(v[..]))
  {
    var norm := sqrt(Dot(v[..], v[..]));
    if norm == 0.0 {
      return;
    }
    ScaleInPlace(v, Ratio(1.0, norm));
  }

  // ---------------------------------------------------------------------
  // Algebra of the dot product
  // ---------------------------------------------------------------------

  lemma ScaledProduct(x: real, y: real, s: real, t: real, d: real)
    ensures Times(Times(s, t), d) + Times(Times(x, s), Times(y, t)) == Times(Times(s, t), d + Times(x, y))
  {
    assert (x * s) * (y * t) == s * t * (x * y);
  }

  lemma ScaleLast(v: Vector, s: real)
    requires v != []
    ensures Scale(v, s) == Scale(v[..|v| - 1], s) + [Times(v[|v| - 1], s)]
  {
  }

  lemma ScalePush(v: Vector, x: real, s: real)
    ensures Scale(v + [x], s) == Scale(v, s) + [Times(x, s)]
  {
    assert (v + [x])[..|v|] == v;
  }

  lemma {:induction false} DotScale(a: Vector, b: Vector, s: real, t: real)
    requires |a| == |b|
    ensures Dot(Scale(a, s), Scale(b, t)) == Times(Times(s, t), Dot(a, b))
  {
    if a != [] {
      var n := |a| - 1;
      DotScale(a[..n], b[..n], s, t);
      ScaleLast(a, s);
      ScaleLast(b, t);
      DotPush(Scale(a[..n], s), Scale(b[..n], t), Times(a[n], s), Times(b[n], t));
      ScaledProduct(a[n], b[n], s, t, Dot(a[..n], b[..n]));
    }
  }

  lemma DotPush(a: Vector, b: Vector, x: real, y: real)
    requires |a| == |b|
    ensures Dot(a + [x], b + [y]) == Dot(a, b) + Times(x, y)
  {
    assert (a + [x])[..|a|] == a && (b + [y])[..|b|] == b;
  }

  /** The dot product is the sum of the products, position by position. */
  lemma {:induction false} DotIsSumOfProducts(a: Vector, b: Vector, x: real, y: real)
    requires |a| == |b|
    ensures Dot([], []) == 0.0 && Dot([x] + a, [y] + b) == x * y + Dot(a, b)
  {
    if a == [] {
      assert [x] + a == [] + [x] && [y] + b == [] + [y];
      DotPush([], [], x, y);
    } else {
      var n := |a| - 1;
      DotIsSumOfProducts(a[..n], b[..n], x, y);
      assert [x] + a == ([x] + a[..n]) + [a[n]] && [y] + b == ([y] + b[..n]) + [b[n]];
      DotPush([x] + a[..n], [y] + b[..n], a[n], b[n]);
    }
  }

  lemma PositiveProduct(x: real, y: real)
    requires x > 0.0 && y > 0.0
    ensures Times(x, y) > 0.0
  {
  }

  lemma NegativeProduct(x: real, y: real)
    requires x < 0.0 && y < 0.0
    ensures Times(x, y) > 0.0
  {
  }

  lemma Square(x: real)
    ensures Times(x, x) >= 0.0
    ensures x != 0.0 ==> Times(x, x) > 0.0
  {
    if x > 0.0 {
      PositiveProduct(x, x);
    } else if x < 0.0 {
      NegativeProduct(x, x);
    }
  }

  lemma {:induction false} DotSelf(v: Vector)
    ensures Dot(v, v) >= 0.0
    ensures Dot(v, v) == 0.0 ==> forall i :: 0 <= i < |v| ==> v[i] == 0.0
  {
    if v != [] {
      DotSelf(v[..|v| - 1]);
      Square(v[|v| - 1]);
    }
  }

  lemma {:induction false} DotZero(z: Vector, v: Vector)
    requires |z| == |v| && forall i :: 0 <= i < |z| ==> z[i] == 0.0
    ensures Dot(z, v) == 0.0 && Dot(v, z) == 0.0
  {
    if z != [] { DotZero(z[..|z| - 1], v[..|v| - 1]); }
  }

  lemma RootOf(sqrt: real -> real, v: Vector)
    requires IsSqrt(sqrt)
    ensures sqrt(Dot(v, v)) >= 0.0 && Times(sqrt(Dot(v, v)), sqrt(Dot(v, v))) == Dot(v, v)
    ensures sqrt(Dot(v, v)) == 0.0 <==> Dot(v, v) == 0.0
    ensures sqrt(Dot(v, v)) == 0.0 ==> forall i :: 0 <= i < |v| ==> v[i] == 0.0
  {
    DotSelf(v);
    Square(sqrt(Dot(v, v)));
  }

  // ---------------------------------------------------------------------
  // Both tiers compute the same score
  // ---------------------------------------------------------------------

  /** Vectors stored by the index have length one. */
  lemma NormalizedIsUnit(sqrt: real -> real, v: Vector)
    requires IsSqrt(sqrt)
    ensures Dot(Normalized(sqrt, v), Normalized(sqrt, v)) == if Dot(v, v) == 0.0 then 0.0 else 1.0
  {
    RootOf(sqrt, v);
    var n := sqrt(Dot(v, v));
    if n != 0.0 {
      DotScale(v, v, Ratio(1.0, n), Ratio(1.0, n));
      UnitProduct(n);
    }
  }

  lemma Quotient(x: real, p: real, q: real)
    requires p != 0.0 && q != 0.0
    ensures Times(p, q) != 0.0
    ensures Times(Times(Ratio(1.0, p), Ratio(1.0, q)), x) == Ratio(x, Times(p, q))
  {
    assert p * q != 0.0;
  }

  lemma UnitProduct(n: real)
    requires n != 0.0
    ensures Times(Times(Ratio(1.0, n), Ratio(1.0, n)), Times(n, n)) == 1.0
  {
    assert (1.0 / n) * (1.0 / n) * (n * n) == 1.0;
  }

  /**
   * The index's dot product of normalised vectors is the store's cosine of the
   * raw ones, zero vectors included.
   */
  lemma NormalizedDotIsCosine(sqrt: real -> real, q: Vector, v: Vector)
    requires IsSqrt(sqrt) && |q| == |v|
    ensures Dot(Normalized(sqrt, q), Normalized(sqrt, v)) == Cosine(sqrt, q, v)
  {
    RootOf(sqrt, q);
    RootOf(sqrt, v);
    var m, n := sqrt(Dot(q, q)), sqrt(Dot(v, v));
    if m == 0.0 {
      DotZero(q, Normalized(sqrt, v));
    } else if n == 0.0 {
      DotZero(v, Normalized(sqrt, q));
    } else {
      DotScale(q, v, Ratio(1.0, m), Ratio(1.0, n));
      Quotient(Dot(q, v), m, n);
    }
  }

  // ---------------------------------------------------------------------
  // Cauchy-Schwarz
  // ---------------------------------------------------------------------

  lemma Difference(p: real, q: real)
    ensures q * q - p * p == (q - p) * (q + p)
  {
  }

  lemma Increasing(p: real, q: real)
    requires 0.0 <= p < q
    ensures p * p < q * q
  {
    Difference(p, q);
    PositiveProduct(q - p, q + p);
  }

  lemma SquareOrder(p: real, q: real)
    requires p >= 0.0 && p * p >= q * q
    ensures p >= q && p >= -q
  {
    if p < q { Increasing(p, q); }
    if p < -q { Increasing(p, -q); }
  }

  lemma CrossTerm(d: real, a: real, b: real, x: real, y: real)
    requires a >= 0.0 && b >= 0.0 && d * d <= a * b
    ensures 2.0 * d * x * y <= a * (y * y) + b * (x * x)
  {
    var p, q := a * (y * y) + b * (x * x), 2.0 * d * x * y;
    var u, v := a * (y * y), b * (x * x);
    assert y * y >= 0.0 && x * x >= 0.0;
    assert u >= 0.0 && v >= 0.0;
    assert (u - v) * (u - v) >= 0.0;
    assert (u + v) * (u + v) == (u - v) * (u - v) + 4.0 * (u * v);
    assert u * v == (a * b) * ((x * x) * (y * y));
    assert (x * x) * (y * y) >= 0.0;
    assert (d * d) * ((x * x) * (y * y)) <= (a * b) * ((x * x) * (y * y));
    assert q * q == 4.0 * ((d * d) * ((x * x) * (y * y)));
    SquareOrder(p, q);
  }

  lemma {:induction false} CauchySchwarz(a: Vector, b: Vector)
    requires |a| == |b|
    ensures Times(Dot(a, b), Dot(a, b)) <= Times(Dot(a, a), Dot(b, b))
  {
    if a != [] {
      var a', b' := a[..|a| - 1], b[..|b| - 1];
      CauchySchwarz(a', b');
      DotSelf(a');
      DotSelf(b');
      OneMoreTerm(Dot(a', b'), Dot(a', a'), Dot(b', b'), a[|a| - 1], b[|b| - 1]);
    }
  }

  lemma OneMoreTerm(d: real, p: real, q: real, x: real, y: real)
    requires p >= 0.0 && q >= 0.0 && Times(d, d) <= Times(p, q)
    ensures var r := d + Times(x, y); Times(r, r) <= Times(p + Times(x, x), q + Times(y, y))
  {
    CrossTerm(d, p, q, x, y);
    Expand(d, p, q, x, y);
  }

  lemma Expand(d: real, p: real, q: real, x: real, y: real)
    requires d * d <= p * q && 2.0 * d * x * y <= p * (y * y) + q * (x * x)
    ensures (d + x * y) * (d + x * y) <= (p + x * x) * (q + y * y)
  {
    assert (d + x * y) * (d + x * y) == (x * x) * (y * y) + 2.0 * d * x * y + d * d;
    assert (p + x * x) * (q + y * y) == (x * x) * (y * y) + (p * (y * y) + q * (x * x)) + p * q;
  }

  lemma BoundedByRoots(d: real, m: real, n: real)
    requires m > 0.0 && n > 0.0 && Times(d, d) <= Times(Times(m, m), Times(n, n))
    ensures Times(m, n) != 0.0 && -1.0 <= Ratio(d, Times(m, n)) <= 1.0
  {
    PositiveProduct(m, n);
    assert (m * n) * (m * n) == Times(Times(m, m), Times(n, n));
    SquareOrder(m * n, d);
    Bounded(d, m * n);
  }

  /** Scores lie between -1 and 1. */
  lemma CosineInUnitInterval(sqrt: real -> real, a: Vector, b: Vector)
    requires IsSqrt(sqrt)
    ensures -1.0 <= Cosine(sqrt, a, b) <= 1.0
    ensures |a| != |b| ==> Cosine(sqrt, a, b) == 0.0
  {
    if |a| == |b| && sqrt(Dot(a, a)) != 0.0 && sqrt(Dot(b, b)) != 0.0 {
      RootOf(sqrt, a);
      RootOf(sqrt, b);
      CauchySchwarz(a, b);
      BoundedByRoots(Dot(a, b), sqrt(Dot(a, a)), sqrt(Dot(b, b)));
    }
  }

  lemma NotNegative(x: real, p: real)
    requires p > 0.0 && x * p >= 0.0
    ensures x >= 0.0
  {
  }

  lemma Bounded(d: real, p: real)
    requires p > 0.0 && p >= d && p >= -d
    ensures -1.0 <= d / p <= 1.0
  {
    var r := d / p;
    assert r * p == d;
    assert (1.0 - r) * p >= 0.0 && (1.0 + r) * p >= 0.0;
    NotNegative(1.0 - r, p);
    NotNegative(1.0 + r, p);
  }
}
