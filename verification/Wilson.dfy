/**
 The Wilson score interval of internal/benchmark/score.go over the reals. The square root is a
 parameter: any s >= 0 whose square is the radicand. The reference is the score test that the
 interval inverts: x belongs to it exactly when (x - k/n)^2 <= z^2 * x * (1 - x) / n.
 */
module Wilson {
  import opened Domain

  const Z: real := 1.959963984540054

  function Radicand(k: nat, n: nat): real
    requires n > 0
  {
    var p := k as real / n as real;
    p * (1.0 - p) / n as real + Z * Z / (4.0 * (n * n) as real)
  }

  ghost predicate IsRoot(s: real, k: nat, n: nat)
    requires n > 0
  {
    s >= 0.0 && s * s == Radicand(k, n)
  }

  /** Both bounds before max, min and the two corrections at the ends. */
  function Raw(k: nat, n: nat, s: real): (real, real)
    requires n > 0
  {
    var p := k as real / n as real;
    var den := 1.0 + Z * Z / n as real;
    var mid := (p + Z * Z / (2.0 * n as real)) / den;
    var half := Z * s / den;
    (mid - half, mid + half)
  }

  function Max(a: real, b: real): real { if a < b then b else a }

  function Min(a: real, b: real): real { if a < b then a else b }

  /** None stands for NaN. */
  function Wilson(k: nat, n: nat, s: real): Option<(real, real)> {
    if n == 0 then None
    else
      var (rawLo, rawHi) := Raw(k, n, s);
      var lo, hi := Max(0.0, rawLo), Min(1.0, rawHi);
      Some((if k == 0 then 0.0 else lo, if k == n then 1.0 else hi))
  }

  // ---- Products, squares and quotients

  lemma NonNegativeProduct(x: real, y: real)
    requires x >= 0.0 && y >= 0.0
    ensures x * y >= 0.0
  {
  }

  lemma PositiveProduct(x: real, y: real)
    requires x > 0.0 && y > 0.0
    ensures x * y > 0.0
  {
  }

  lemma SquareGrows(x: real, y: real)
    requires x > y >= 0.0
    ensures x * x > y * y
  {
    PositiveProduct(x - y, x + y);
    assert (x - y) * (x + y) == x * x - y * y;
  }

  lemma SquareOrder(x: real, y: real)
    requires y >= 0.0 && x * x <= y * y
    ensures x <= y
  {
    if x > y { SquareGrows(x, y); }
  }

  lemma Cancel(x: real, y: real, c: real)
    requires c > 0.0 && x * c == y * c
    ensures x == y
  {
    assert (x - y) * c == 0.0;
    if x > y { PositiveProduct(x - y, c); }
    if y > x { PositiveProduct(y - x, c); }
  }

  lemma SquareOf(x: real, y: real)
    ensures (x + y) * (x + y) == x * x + 2.0 * (x * y) + y * y
  {
  }

  lemma Spread(a: real, p: real)
    ensures a * (p * (1.0 - p)) == a * p - a * (p * p)
  {
  }

  // ---- The algebra of the bounds: p = k/n, a = z^2/2n, and w = z * s is the root of 2ap(1 - p) + a^2

  ghost predicate Shape(p: real, a: real, w: real) {
    0.0 <= p <= 1.0 && a > 0.0 && w >= 0.0 && w * w == 2.0 * (a * (p * (1.0 - p))) + a * a
  }

  lemma Mirror(p: real, a: real, w: real)
    requires Shape(p, a, w)
    ensures Shape(1.0 - p, a, w)
  {
    assert (1.0 - p) * (1.0 - (1.0 - p)) == p * (1.0 - p);
  }

  lemma RootBelow(p: real, a: real, w: real)
    requires Shape(p, a, w)
    ensures w <= p + a
    ensures p == 0.0 ==> w == a
  {
    Spread(a, p);
    SquareOf(p, a);
    NonNegativeProduct(p, p);
    NonNegativeProduct(a, p * p);
    assert p * a == a * p;
    SquareOrder(w, p + a);
    if p == 0.0 { SquareOrder(a, w); }
  }

  lemma RootAbove(p: real, a: real, w: real)
    requires Shape(p, a, w)
    ensures a - 2.0 * (a * p) <= w
    ensures 0.0 < p < 1.0 ==> a - 2.0 * (a * p) < w
  {
    var d := a - 2.0 * (a * p);
    var pq := p * (1.0 - p);
    NonNegativeProduct(p, 1.0 - p);
    NonNegativeProduct(a, pq);
    NonNegativeProduct(a, a * pq);
    assert d * d == a * a - 4.0 * (a * (a * pq)) by { SquareGap(a, p); }
    SquareOrder(d, w);
    if 0.0 < p < 1.0 {
      PositiveProduct(p, 1.0 - p);
      PositiveProduct(a, pq);
    }
  }

  lemma SquareGap(a: real, p: real)
    ensures var d := a - 2.0 * (a * p); d * d == a * a - 4.0 * (a * (a * (p * (1.0 - p))))
  {
    Spread(a, p);
    var u := a * p;
    SquareOf(a, -2.0 * u);
    assert (-2.0 * u) * (-2.0 * u) == 4.0 * (u * u);
    assert u * u == a * (a * (p * p)) by { assert (a * p) * (a * p) == a * (p * (a * p)); }
    assert a * (-2.0 * u) == -2.0 * (a * u);
    assert a * (a * p - a * (p * p)) == a * (a * p) - a * (a * (p * p));
  }

  /** The numerators of 0, lo, p, hi and 1 over 1 + 2a, in order. */
  lemma Ordered(p: real, a: real, w: real)
    requires Shape(p, a, w)
    ensures 0.0 <= p + a - w <= p + 2.0 * (a * p) <= p + a + w <= 1.0 + 2.0 * a
    ensures p == 0.0 ==> p + a - w == 0.0
    ensures p == 1.0 ==> p + a + w == 1.0 + 2.0 * a
    ensures 0.0 < p < 1.0 ==> p + a - w < p + 2.0 * (a * p) < p + a + w
  {
    RootBelow(p, a, w);
    RootAbove(p, a, w);
    Mirror(p, a, w);
    RootBelow(1.0 - p, a, w);
    RootAbove(1.0 - p, a, w);
    assert a * (1.0 - p) == a - a * p;
  }

  // ---- From the algebra to the interval

  /** w is a root of the scaled radicand. */
  lemma ShapeHolds(k: nat, n: nat, s: real)
    requires 0 < n && k <= n && IsRoot(s, k, n)
    ensures Shape(k as real / n as real, Z * Z / (2.0 * n as real), Z * s)
  {
    var N := n as real;
    var p := k as real / N;
    Share(k as real, N);
    NonNegativeProduct(Z, s);
    assert (n * n) as real == N * N;
    Scale(Z, s, p * (1.0 - p), N, (n * n) as real);
  }

  lemma Share(x: real, N: real)
    requires 0.0 <= x <= N && N > 0.0
    ensures 0.0 <= x / N <= 1.0
  {
  }

  lemma Scale(z: real, s: real, v: real, N: real, M: real)
    requires N > 0.0 && M == N * N && M > 0.0 && s * s == v / N + z * z / (4.0 * M)
    ensures var a := z * z / (2.0 * N); (z * s) * (z * s) == 2.0 * (a * v) + a * a
  {
    var zz := z * z;
    assert (z * s) * (z * s) == zz * (s * s);
    DivideBack(v, N);
    DivideBack(zz, 2.0 * N);
    DivideBack(zz, 4.0 * M);
    ScaleTerms(zz, zz / (2.0 * N), v / N, zz / (4.0 * M), N, M);
  }

  lemma DivideBack(x: real, c: real)
    requires c > 0.0
    ensures (x / c) * c == x
  {
  }

  lemma ScaleTerms(zz: real, a: real, t: real, u: real, N: real, M: real)
    requires N > 0.0 && M == N * N && zz == a * (2.0 * N) && u * (4.0 * M) == zz
    ensures zz * (t + u) == 2.0 * (a * (t * N)) + a * a
  {
    var d := 2.0 * N;
    assert d * d == 4.0 * M;
    HalfOf(zz, a, u, d);
    assert (a * d) * u == a * (u * d);
    assert (a * d) * t == 2.0 * (a * (t * N));
  }

  lemma HalfOf(zz: real, a: real, u: real, d: real)
    requires d > 0.0 && zz == a * d && u * (d * d) == zz
    ensures u * d == a
  {
    assert (u * d) * d == u * (d * d);
    Cancel(u * d, a, d);
  }

  /** Both bounds over the common denominator. */
  ghost predicate Over(p: real, a: real, w: real, r: (real, real)) {
    && 1.0 + 2.0 * a > 0.0
    && r.0 * (1.0 + 2.0 * a) == p + a - w
    && r.1 * (1.0 + 2.0 * a) == p + a + w
  }

  lemma RawShape(k: nat, n: nat, s: real)
    requires n > 0
    ensures Over(k as real / n as real, Z * Z / (2.0 * n as real), Z * s, Raw(k, n, s))
  {
    Halve(Z * Z, n as real);
    var p, a, w := k as real / n as real, Z * Z / (2.0 * n as real), Z * s;
    Bounds(p + a, w, 1.0 + 2.0 * a);
  }

  lemma Halve(zz: real, N: real)
    requires N > 0.0
    ensures zz / N == 2.0 * (zz / (2.0 * N))
  {
    Cancel(zz / N, 2.0 * (zz / (2.0 * N)), N);
  }

  lemma Bounds(m: real, w: real, den: real)
    requires den > 0.0
    ensures (m / den - w / den) * den == m - w && (m / den + w / den) * den == m + w
  {
  }

  /** Scaling by a positive denominator keeps order and equality. */
  lemma Unscale(x: real, y: real, den: real)
    requires den > 0.0
    ensures x * den <= y * den <==> x <= y
    ensures x * den == y * den <==> x == y
  {
    if x < y { PositiveProduct(y - x, den); }
    if y < x { PositiveProduct(x - y, den); }
    assert (y - x) * den == y * den - x * den;
  }

  lemma Divide(den: real, x: real, y: real, top: real, bottom: real)
    requires den > 0.0 && x * den == top && y * den == bottom
    ensures (top <= bottom <==> x <= y) && (top == bottom <==> x == y)
  {
    Unscale(x, y, den);
  }

  lemma QuotientOrder(p: real, a: real, w: real, r: (real, real))
    requires Shape(p, a, w) && Over(p, a, w, r)
    ensures 0.0 <= r.0 <= p <= r.1 <= 1.0
    ensures (p == 0.0 ==> r.0 == 0.0) && (p == 1.0 ==> r.1 == 1.0) && (0.0 < p < 1.0 ==> r.0 < p < r.1)
  {
    hide Shape;
    var den := 1.0 + 2.0 * a;
    var mid := p + 2.0 * (a * p);
    Ordered(p, a, w);
    assert p * den == mid;
    Divide(den, 0.0, r.0, 0.0, p + a - w);
    Divide(den, r.0, p, p + a - w, mid);
    Divide(den, p, r.1, mid, p + a + w);
    Divide(den, r.1, 1.0, p + a + w, den);
  }

  lemma RawOrder(k: nat, n: nat, s: real)
    requires 0 < n && k <= n && IsRoot(s, k, n)
    ensures var p := k as real / n as real;
      && 0.0 <= Raw(k, n, s).0 <= p <= Raw(k, n, s).1 <= 1.0
      && (k == 0 ==> Raw(k, n, s).0 == 0.0) && (k == n ==> Raw(k, n, s).1 == 1.0)
      && (0 < k < n ==> Raw(k, n, s).0 < p < Raw(k, n, s).1)
  {
    hide Raw, Radicand, IsRoot, Shape, Over;
    ShapeHolds(k, n, s);
    RawShape(k, n, s);
    QuotientOrder(k as real / n as real, Z * Z / (2.0 * n as real), Z * s, Raw(k, n, s));
    Ends(k as real, n as real);
  }

  lemma Ends(x: real, N: real)
    requires 0.0 <= x <= N && N > 0.0
    ensures x / N == 0.0 <==> x == 0.0
    ensures x / N == 1.0 <==> x == N
    ensures 0.0 < x < N ==> 0.0 < x / N < 1.0
  {
    var p := x / N;
    assert p * N == x;
    Unscale(0.0, p, N);
    Unscale(p, 1.0, N);
  }

  /**
   The interval holds the proportion, stays within [0, 1], and no clamp or correction ever changes
   the exact value.
   */
  lemma ClampsNeverBite(k: nat, n: nat, s: real)
    requires 0 < n && k <= n && IsRoot(s, k, n)
    ensures Wilson(k, n, s) == Some(Raw(k, n, s))
    ensures var (lo, hi) := Wilson(k, n, s).value; var p := k as real / n as real;
      0.0 <= lo <= p <= hi <= 1.0 && (0 < k < n ==> lo < p < hi)
  {
    RawOrder(k, n, s);
    hide Raw, Radicand, IsRoot;
  }

  lemma RootsAgree(s: real, t: real, k: nat, n: nat)
    requires n > 0 && IsRoot(s, k, n) && IsRoot(t, k, n)
    ensures s == t
  {
    SquareOrder(s, t);
    SquareOrder(t, s);
  }

  lemma RadicandMirror(k: nat, n: nat)
    requires 0 < n && k <= n
    ensures Radicand(n - k, n) == Radicand(k, n)
  {
    var p, q := k as real / n as real, (n - k) as real / n as real;
    Complement(k as real, n as real);
    assert q == 1.0 - p;
    assert q * (1.0 - q) == p * (1.0 - p);
  }

  lemma Complement(x: real, N: real)
    requires N > 0.0
    ensures (N - x) / N == 1.0 - x / N
  {
    Cancel((N - x) / N, 1.0 - x / N, N);
  }

  lemma Reflect(den: real, num: real, lo: real, hi: real)
    requires den > 0.0 && hi * den == num && lo * den == den - num
    ensures lo == 1.0 - hi
  {
    assert (1.0 - hi) * den == den - hi * den;
    Cancel(lo, 1.0 - hi, den);
  }

  lemma OverMirror(p: real, a: real, w: real, r: (real, real), m: (real, real))
    requires Over(p, a, w, r) && Over(1.0 - p, a, w, m)
    ensures m == (1.0 - r.1, 1.0 - r.0)
  {
    Reflect(1.0 + 2.0 * a, p + a + w, m.0, r.1);
    Reflect(1.0 + 2.0 * a, p + a - w, m.1, r.0);
  }

  /** Failures mirror successes. */
  lemma MirrorImage(k: nat, n: nat, s: real, t: real)
    requires 0 < n && k <= n && IsRoot(s, k, n) && IsRoot(t, n - k, n)
    ensures Wilson(n - k, n, t).value.0 == 1.0 - Wilson(k, n, s).value.1
    ensures Wilson(n - k, n, t).value.1 == 1.0 - Wilson(k, n, s).value.0
  {
    hide Raw, Radicand, Wilson, Over;
    RadicandMirror(k, n);
    RootsAgree(s, t, k, n);
    ClampsNeverBite(k, n, s);
    ClampsNeverBite(n - k, n, t);
    RawShape(k, n, s);
    RawShape(n - k, n, s);
    Complement(k as real, n as real);
    assert (n - k) as real == n as real - k as real;
    OverMirror(k as real / n as real, Z * Z / (2.0 * n as real), Z * s, Raw(k, n, s), Raw(n - k, n, s));
  }

  lemma SquareWithin(t: real, w: real)
    requires w >= 0.0
    ensures -w <= t <= w <==> t * t <= w * w
  {
    if t * t <= w * w {
      SquareOrder(t, w);
      SquareOrder(-t, w);
    } else if -w <= t <= w {
      if t >= 0.0 { SquareKeepsOrder(t, w); } else { SquareKeepsOrder(-t, w); }
    }
  }

  lemma SquareKeepsOrder(x: real, y: real)
    requires 0.0 <= x <= y
    ensures x * x <= y * y
  {
    if x < y { SquareGrows(y, x); }
  }

  lemma QuotientTest(p: real, a: real, w: real, r: (real, real), x: real, v: real)
    requires Shape(p, a, w) && Over(p, a, w, r) && v == 2.0 * a
    ensures r.0 <= x <= r.1 <==> (x - p) * (x - p) <= v * (x * (1.0 - x))
  {
    hide Shape;
    var den := 1.0 + 2.0 * a;
    var y := x * den;
    ShapeRoot(p, a, w);
    Divide(den, r.0, x, p + a - w, y);
    Divide(den, x, r.1, y, p + a + w);
    SquareWithin(y - (p + a), w);
    TestIsQuadratic(p, a, w, x);
  }

  lemma ShapeRoot(p: real, a: real, w: real)
    requires Shape(p, a, w)
    ensures w >= 0.0
  {
  }

  /** The reference definition: x is in the interval exactly when the score test does not reject it. */
  lemma ScoreTest(k: nat, n: nat, s: real, x: real)
    requires 0 < n && k <= n && IsRoot(s, k, n)
    ensures var (lo, hi) := Wilson(k, n, s).value; var p := k as real / n as real;
      lo <= x <= hi <==> (x - p) * (x - p) <= Z * Z / n as real * (x * (1.0 - x))
  {
    hide Raw, Radicand, IsRoot, Wilson, Shape, Over;
    ClampsNeverBite(k, n, s);
    ShapeHolds(k, n, s);
    RawShape(k, n, s);
    Halve(Z * Z, n as real);
    QuotientTest(k as real / n as real, Z * Z / (2.0 * n as real), Z * s, Raw(k, n, s), x, Z * Z / n as real);
  }

  lemma TestIsQuadratic(p: real, a: real, w: real, x: real)
    requires Shape(p, a, w)
    ensures var t := x * (1.0 + 2.0 * a) - (p + a);
      t * t <= w * w <==> (x - p) * (x - p) <= 2.0 * a * (x * (1.0 - x))
  {
    var den := 1.0 + 2.0 * a;
    var t := x * den - (p + a);
    var gap := (x - p) * (x - p) - 2.0 * a * (x * (1.0 - x));
    Factor(p, a, x);
    assert t * t - w * w == den * gap;
    Unscale(gap, 0.0, den);
  }

  /** (den x - p - a)^2 - (2ap(1 - p) + a^2) = den ((x - p)^2 - 2ax(1 - x)). */
  lemma Factor(p: real, a: real, x: real)
    ensures var den := 1.0 + 2.0 * a; var t := x * den - (p + a);
      t * t - (2.0 * (a * (p * (1.0 - p))) + a * a) == den * ((x - p) * (x - p) - 2.0 * a * (x * (1.0 - x)))
  {
  }
}
