/**
 * The low-variance time grid of the score-matching loss: one uniform draw
 * `u0` is spread over the batch by adding `linspace(0, 1, N)` and keeping the
 * fractional part, then mapped affinely into [tmin, tmax].
 */
module TimeGrid {

  /** `jnp.remainder(x, 1)`: the fractional part, floor-based. */
  function Frac(x: real): (r: real)
    ensures 0.0 <= r < 1.0
  {
    x - x.Floor as real
  }

  /** What is removed is a whole number: x and frac(x) differ by an integer. */
  lemma FracRemovesWhole(x: real)
    ensures x - Frac(x) == (x - Frac(x)).Floor as real
  {
  }

  /** Shifting by an integer does not change the fractional part. */
  lemma {:induction false} FracShift(x: real, k: int)
    ensures Frac(x + k as real) == Frac(x)
  {
    assert (x + k as real).Floor == x.Floor + k;
  }

  /** A whole part plus a fraction in [0, 1) has exactly that fraction. */
  lemma FracOfSplit(q: int, y: real)
    requires 0.0 <= y < 1.0
    ensures Frac(q as real + y) == y
  {
    assert (q as real + y).Floor == q;
  }

  /**
   * `jnp.linspace(0, 1, n)`: n evenly spaced points from 0 to 1 with both
   * endpoints included, so the stride is 1/(n-1); a single point is 0.
   */
  function Linspace(n: nat): (r: seq<real>)
    ensures |r| == n
    ensures n >= 1 ==> r[0] == 0.0
    ensures n >= 2 ==> r[n - 1] == 1.0
    ensures forall i :: 0 <= i < n ==> 0.0 <= r[i] <= 1.0
  {
    if n <= 1 then seq(n, _ => 0.0)
    else
      var r := seq(n, (i: int) requires 0 <= i < n => i as real / (n - 1) as real);
      assert r[n - 1] == 1.0 by { DivSelf((n - 1) as real); }
      r
  }

  /** The fractions u_i = frac(u0 + linspace(0, 1, n)_i), one per batch element. */
  function LowVarGrid(u0: real, n: nat): (u: seq<real>)
    ensures |u| == n
    ensures forall i :: 0 <= i < n ==> 0.0 <= u[i] < 1.0
  {
    var l := Linspace(n);
    seq(n, (i: int) requires 0 <= i < n => Frac(u0 + l[i]))
  }

  /** The affine map of fractions into the diffusion time interval. */
  function Times(u: seq<real>, tmin: real, tmax: real): (t: seq<real>)
    ensures |t| == |u|
    ensures tmin < tmax ==> forall i :: 0 <= i < |u| && 0.0 <= u[i] < 1.0 ==> tmin <= t[i] < tmax
  {
    seq(|u|, (i: int) requires 0 <= i < |u| => AffineTime(u[i], tmin, tmax))
  }

  /** `u * (tmax - tmin) + tmin`: [0, 1) onto [tmin, tmax) when tmin < tmax. */
  function AffineTime(u: real, tmin: real, tmax: real): (t: real)
    ensures tmin < tmax && 0.0 <= u < 1.0 ==> tmin <= t < tmax
  {
    if tmin < tmax && 0.0 <= u < 1.0 then
      ScaleInterval(u, tmin, tmax);
      u * (tmax - tmin) + tmin
    else
      u * (tmax - tmin) + tmin
  }

  /** A batch of one gets the draw itself. */
  lemma GridSingle(u0: real)
    requires 0.0 <= u0 < 1.0
    ensures LowVarGrid(u0, 1) == [u0]
  {
    FracOfSplit(0, u0);
  }

  /**
   * Because linspace includes its endpoint, the first and the last element
   * of every batch of two or more get the same fraction, namely u0.
   */
  lemma GridEndsCoincide(u0: real, n: nat)
    requires 0.0 <= u0 < 1.0 && n >= 2
    ensures LowVarGrid(u0, n)[0] == LowVarGrid(u0, n)[n - 1] == u0
  {
    FracOfSplit(0, u0);
    FracOfSplit(1, u0);
  }

  /** Consecutive fractions are 1/(n-1) apart, modulo 1. */
  lemma {:induction false} GridStride(u0: real, n: nat, i: nat)
    requires n >= 2 && i + 1 < n
    ensures LowVarGrid(u0, n)[i + 1] == Frac(LowVarGrid(u0, n)[i] + 1.0 / (n - 1) as real)
  {
    var u, l := LowVarGrid(u0, n), Linspace(n);
    var m := (n - 1) as real;
    var x := u0 + l[i];
    assert l[i + 1] == l[i] + 1.0 / m;
    FracShift(x + 1.0 / m, -(x.Floor));
    assert u[i] + 1.0 / m == x + 1.0 / m + (-(x.Floor)) as real;
  }

  /** The index of the stratum of width 1/m holding frac(u0 + i/m). */
  function Stratum(u0: real, m: nat, i: nat): (b: int)
    requires 0.0 <= u0 < 1.0 && m >= 1 && i < m
    ensures 0 <= b < m
  {
    FloorBelow(u0, m);
    var s := (u0 * m as real).Floor + i;
    if s < m then s else s - m
  }

  /** x lies in the b-th of m equal strata of [0, 1). */
  predicate InStratum(x: real, b: int, m: nat)
    requires m >= 1
  {
    b as real / m as real <= x < (b + 1) as real / m as real
  }

  /**
   * Stratification over n - 1 strata: for n >= 2 the fraction of element
   * i < n - 1 lies in stratum (floor(u0 * (n-1)) + i) mod (n-1).
   */
  lemma GridStratum(u0: real, n: nat, i: nat)
    requires 0.0 <= u0 < 1.0 && n >= 2 && i < n - 1
    ensures InStratum(LowVarGrid(u0, n)[i], Stratum(u0, n - 1, i), n - 1)
  {
    assert LowVarGrid(u0, n)[i] == Frac(u0 + i as real / (n - 1) as real);
    FracStratum(u0, n - 1, i);
  }

  /** Distinct elements among the first n - 1 fall in distinct strata. */
  lemma StratumInjective(u0: real, m: nat, i: nat, j: nat)
    requires 0.0 <= u0 < 1.0 && m >= 1 && i < m && j < m && i != j
    ensures Stratum(u0, m, i) != Stratum(u0, m, j)
  {
  }

  /** Every stratum receives one of the first n - 1 elements. */
  lemma StratumOnto(u0: real, m: nat, b: int)
    requires 0.0 <= u0 < 1.0 && m >= 1 && 0 <= b < m
    ensures exists i :: 0 <= i < m && Stratum(u0, m, i) == b
  {
    FloorBelow(u0, m);
    var f := (u0 * m as real).Floor;
    var i := if b >= f then b - f else b - f + m;
    assert Stratum(u0, m, i) == b;
  }

  /**
   * The first n - 1 fractions of a batch of n >= 2 are pairwise distinct:
   * only the last element repeats a fraction (that of the first).
   */
  lemma GridDistinct(u0: real, n: nat, i: nat, j: nat)
    requires 0.0 <= u0 < 1.0 && n >= 2 && i < n - 1 && j < n - 1 && i != j
    ensures LowVarGrid(u0, n)[i] != LowVarGrid(u0, n)[j]
  {
    GridStratum(u0, n, i);
    GridStratum(u0, n, j);
    StratumInjective(u0, n - 1, i, j);
    StrataDisjoint(LowVarGrid(u0, n)[i], LowVarGrid(u0, n)[j],
      Stratum(u0, n - 1, i), Stratum(u0, n - 1, j), n - 1);
  }

  lemma StrataDisjoint(x: real, y: real, b: int, c: int, m: nat)
    requires m >= 1 && InStratum(x, b, m) && InStratum(y, c, m) && b != c
    ensures x != y
  {
    var mr := m as real;
    if b < c {
      var p, q := (b + 1) as real, c as real;
      DivMono(p, q, mr);
    } else {
      var p, q := (c + 1) as real, b as real;
      DivMono(p, q, mr);
    }
  }

  lemma DivSelf(m: real)
    requires m > 0.0
    ensures m / m == 1.0
  {
  }

  lemma DivMono(p: real, q: real, m: real)
    requires p <= q && m > 0.0
    ensures p / m <= q / m
  {
  }

  /** A fraction in [0, 1) of a positive d lies in [0, d). */
  lemma ScaleBelow(u: real, d: real)
    requires 0.0 <= u < 1.0 && d > 0.0
    ensures 0.0 <= u * d < d
  {
    var a := 1.0 - u;
    assert a * d > 0.0;
    assert d - u * d == a * d;
  }

  lemma ScaleInterval(u: real, a: real, b: real)
    requires 0.0 <= u < 1.0 && a < b
    ensures 0.0 <= u * (b - a) < b - a
  {
    var x, y := 1.0 - u, b - a;
    assert x * y > 0.0;
    assert u * y >= 0.0;
    assert x * y == (1.0 - u) * (b - a);
    assert u * y == u * (b - a);
  }

  lemma FloorBelow(u0: real, m: nat)
    requires 0.0 <= u0 < 1.0 && m >= 1
    ensures 0 <= (u0 * m as real).Floor < m
  {
    var mr := m as real;
    ScaleBelow(u0, mr);
  }

  lemma Recombine(u0: real, i: real, m: real)
    requires m > 0.0
    ensures u0 + i / m == (u0 * m + i) / m
  {
  }

  lemma DivBounds(b: real, delta: real, m: real)
    requires 0.0 <= delta < 1.0 && m > 0.0
    ensures b / m <= (b + delta) / m < (b + 1.0) / m
  {
    assert (b + delta) / m - b / m == delta / m;
    assert (b + 1.0) / m - (b + delta) / m == (1.0 - delta) / m;
  }

  lemma UnitDiv(y: real, m: real)
    requires 0.0 <= y < m
    ensures 0.0 <= y / m < 1.0
  {
  }

  /** u0 + i/m == k + (b + delta)/m with k in {0, 1} the number of wraps. */
  lemma StratumCase(u0: real, m: nat, i: nat, b: int, k: int)
    requires m >= 1 && (k == 0 || k == 1)
    requires 0 <= b && b + 1 <= m
    requires 0.0 <= u0 * m as real + i as real - (k * m) as real - b as real < 1.0
    ensures InStratum(Frac(u0 + i as real / m as real), b, m)
  {
    var delta := u0 * m as real + i as real - (k * m) as real - b as real;
    var y := (b as real + delta) / m as real;
    assert u0 + i as real / m as real == k as real + y by {
      ShiftByStrata(u0, m, i, b, k, delta);
    }
    assert 0.0 <= y < 1.0 by { StratumWidth(b, delta, m); }
    FracOfSplit(k, y);
    StratumWidth(b, delta, m);
  }

  /** (b + delta)/m lies in stratum b, for delta in [0, 1). */
  lemma StratumWidth(b: int, delta: real, m: nat)
    requires m >= 1 && 0 <= b && b + 1 <= m && 0.0 <= delta < 1.0
    ensures InStratum((b as real + delta) / m as real, b, m)
    ensures 0.0 <= (b as real + delta) / m as real < 1.0
  {
    var mr, br := m as real, b as real;
    DivBounds(br, delta, mr);
    UnitDiv(br + delta, mr);
  }

  lemma ShiftByStrata(u0: real, m: nat, i: nat, b: int, k: int, delta: real)
    requires m >= 1
    requires delta == u0 * m as real + i as real - (k * m) as real - b as real
    ensures u0 + i as real / m as real == k as real + (b as real + delta) / m as real
  {
    var mr, ir, kr := m as real, i as real, k as real;
    var y := b as real + delta;
    Recombine(u0, ir, mr);
    assert (k * m) as real == kr * mr;
    Recombine(kr, y, mr);
  }

  lemma FracStratumLow(u0: real, m: nat, i: nat)
    requires 0.0 <= u0 < 1.0 && m >= 1 && i < m
    requires (u0 * m as real).Floor + i < m
    ensures InStratum(Frac(u0 + i as real / m as real), Stratum(u0, m, i), m)
  {
    var f := (u0 * m as real).Floor;
    FloorBelow(u0, m);
    StratumCase(u0, m, i, f + i, 0);
  }

  lemma FracStratumHigh(u0: real, m: nat, i: nat)
    requires 0.0 <= u0 < 1.0 && m >= 1 && i < m
    requires (u0 * m as real).Floor + i >= m
    ensures InStratum(Frac(u0 + i as real / m as real), Stratum(u0, m, i), m)
  {
    var f := (u0 * m as real).Floor;
    FloorBelow(u0, m);
    StratumCase(u0, m, i, f + i - m, 1);
  }

  /** The stratum of frac(u0 + i/m) among m strata. */
  lemma FracStratum(u0: real, m: nat, i: nat)
    requires 0.0 <= u0 < 1.0 && m >= 1 && i < m
    ensures InStratum(Frac(u0 + i as real / m as real), Stratum(u0, m, i), m)
  {
    if (u0 * m as real).Floor + i < m {
      FracStratumLow(u0, m, i);
    } else {
      FracStratumHigh(u0, m, i);
    }
  }
}
