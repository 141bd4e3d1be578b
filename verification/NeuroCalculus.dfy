/** Derivatives of real functions at zero, as far as training needs them. */
module NeuroCalculus {

  function Abs(x: real): real {
    if x < 0.0 then -x else x
  }

  /** By how much f misses its linear approximation at distance h from `at`. */
  function Gap(f: real -> real, at: real, slope: real, h: real): real {
    f(at + h) - f(at) - slope * h
  }

  /** The error allowed at distance h. */
  function Share(eps: real, h: real): real {
    eps * Abs(h)
  }

  ghost predicate Near(f: real -> real, at: real, slope: real, eps: real, h: real) {
    Abs(Gap(f, at, slope, h)) <= Share(eps, h)
  }

  ghost predicate Within(f: real -> real, at: real, slope: real, eps: real, delta: real) {
    forall h: real {:trigger Near(f, at, slope, eps, h)} :: Abs(h) < delta ==> Near(f, at, slope, eps, h)
  }

  ghost predicate Close(f: real -> real, at: real, slope: real, eps: real) {
    exists delta: real :: delta > 0.0 && Within(f, at, slope, eps, delta)
  }

  /** f is differentiable at `at`, with derivative `slope`. */
  ghost predicate Derivative(f: real -> real, at: real, slope: real) {
    forall eps: real :: eps > 0.0 ==> Close(f, at, slope, eps)
  }

  lemma AbsMul(x: real, y: real)
    ensures Abs(x * y) == Abs(x) * Abs(y)
  {
  }

  lemma AbsSum(x: real, y: real)
    ensures Abs(x + y) <= Abs(x) + Abs(y)
  {
  }

  /** The radius inside which f is within eps of its linear approximation. */
  lemma Radius(f: real -> real, at: real, slope: real, eps: real) returns (delta: real)
    requires Derivative(f, at, slope) && eps > 0.0
    ensures delta > 0.0 && Within(f, at, slope, eps, delta)
  {
    assert Close(f, at, slope, eps);
    delta :| delta > 0.0 && Within(f, at, slope, eps, delta);
  }

  function Least(a: real, b: real): (m: real)
    ensures m <= a && m <= b && (m == a || m == b)
  {
    if a < b then a else b
  }

  lemma Affine(f: real -> real, a: real, b: real)
    requires forall t: real :: f(t) == a + b * t
    ensures Derivative(f, 0.0, b)
  {
    forall eps: real | eps > 0.0
      ensures Close(f, 0.0, b, eps)
    {
      forall h: real
        ensures Near(f, 0.0, b, eps, h)
      {
        assert f(0.0 + h) == a + b * h && f(0.0) == a + b * 0.0;
      }
      assert Within(f, 0.0, b, eps, 1.0);
    }
  }

  lemma HalfShares(eps: real, h: real)
    ensures Share(eps / 2.0, h) + Share(eps / 2.0, h) == Share(eps, h)
  {
  }

  lemma ThirdShares(eps: real, h: real)
    ensures Share(eps / 3.0, h) + Share(eps / 3.0, h) + Share(eps / 3.0, h) == Share(eps, h)
  {
  }

  lemma SumNear(f: real -> real, g: real -> real, h: real -> real, p: real, q: real, eps: real, t: real)
    requires h(t) == f(t) + g(t) && h(0.0) == f(0.0) + g(0.0)
    requires Near(f, 0.0, p, eps / 2.0, t) && Near(g, 0.0, q, eps / 2.0, t)
    ensures Near(h, 0.0, p + q, eps, t)
  {
    assert 0.0 + t == t;
    AbsSum(Gap(f, 0.0, p, t), Gap(g, 0.0, q, t));
    assert Gap(h, 0.0, p + q, t) == Gap(f, 0.0, p, t) + Gap(g, 0.0, q, t);
    HalfShares(eps, t);
  }

  lemma SumRule(f: real -> real, g: real -> real, h: real -> real, p: real, q: real, slope: real)
    requires Derivative(f, 0.0, p) && Derivative(g, 0.0, q) && slope == p + q
    requires forall t: real :: h(t) == f(t) + g(t)
    ensures Derivative(h, 0.0, slope)
  {
    forall eps: real | eps > 0.0
      ensures Close(h, 0.0, slope, eps)
    {
      var df := Radius(f, 0.0, p, eps / 2.0);
      var dg := Radius(g, 0.0, q, eps / 2.0);
      var delta := Least(df, dg);
      forall t: real | Abs(t) < delta
        ensures Near(h, 0.0, slope, eps, t)
      {
        SumNear(f, g, h, p, q, eps, t);
      }
      assert Within(h, 0.0, slope, eps, delta);
    }
  }

  lemma Monotone(a: real, b: real, c: real, d: real)
    requires 0.0 <= a <= b && 0.0 <= c <= d
    ensures a * c <= b * d
  {
    assert b * d - a * c == (b - a) * d + a * (d - c);
  }

  /** A factor k in front of something at most e * size. */
  lemma Scaled(k: real, x: real, e: real, size: real, share: real)
    requires Abs(x) <= e * size && 0.0 <= e && 0.0 <= size && (Abs(k) + 1.0) * e <= share
    ensures Abs(k * x) <= share * size
  {
    AbsMul(k, x);
    Monotone(Abs(k), Abs(k) + 1.0, Abs(x), e * size);
    assert (Abs(k) + 1.0) * (e * size) == (Abs(k) + 1.0) * e * size;
    Monotone((Abs(k) + 1.0) * e, share, size, size);
  }

  lemma AbsSplit(x: real, l: real)
    ensures Abs(x) <= Abs(x - l) + Abs(l)
  {
  }

  lemma Combine(x: real, r: real, l: real, e: real, p: real, size: real)
    requires x <= r + l && r <= e * size && l == p * size && 0.0 <= e <= 1.0 && 0.0 <= size
    ensures x <= (p + 1.0) * size
  {
    Monotone(e, 1.0, size, size);
  }

  /** A value within e of p * t is at most (|p| + 1) * |t|, for e at most 1. */
  lemma Grows(x: real, p: real, e: real, t: real)
    requires Abs(x - p * t) <= e * Abs(t) && 0.0 <= e <= 1.0
    ensures Abs(x) <= (Abs(p) + 1.0) * Abs(t)
  {
    AbsSplit(x, p * t);
    AbsMul(p, t);
    Combine(Abs(x), Abs(x - p * t), Abs(p * t), e, Abs(p), Abs(t));
  }

  /** A product of two increments is of second order. */
  lemma SecondOrder(x: real, y: real, a: real, b: real, size: real, share: real)
    requires Abs(x) <= a * size && Abs(y) <= b * size && 0.0 <= size && 0.0 <= a && 0.0 <= b
    requires a * b * size <= share
    ensures Abs(x * y) <= share * size
  {
    AbsMul(x, y);
    Monotone(Abs(x), a * size, Abs(y), b * size);
    assert a * size * (b * size) == a * b * size * size;
    Monotone(0.0, a, 0.0, b);
    Monotone(a * b, a * b, 0.0, size);
    Monotone(a * b * size, share, size, size);
  }

  /** A positive number that times k stays below bound, and is at most 1. */
  lemma Small(k: real, bound: real) returns (e: real)
    requires k >= 1.0 && bound > 0.0
    ensures 0.0 < e <= 1.0 && k * e <= bound
  {
    e := Least(bound / k, 1.0);
    assert k * (bound / k) == bound;
    Monotone(k, k, e, bound / k);
  }

  // ---------------------------------------------------------------- products

  function ScaledGap(f: real -> real, p: real, k: real, t: real): real {
    k * Gap(f, 0.0, p, t)
  }

  function SecondGap(f: real -> real, g: real -> real, t: real): real {
    (f(t) - f(0.0)) * (g(t) - g(0.0))
  }

  ghost predicate ScaledNear(f: real -> real, p: real, k: real, share: real, t: real) {
    Abs(ScaledGap(f, p, k, t)) <= Share(share, t)
  }

  ghost predicate SecondNear(f: real -> real, g: real -> real, share: real, t: real) {
    Abs(SecondGap(f, g, t)) <= Share(share, t)
  }

  lemma ScaledRadius(f: real -> real, p: real, k: real, share: real) returns (delta: real)
    requires Derivative(f, 0.0, p) && share > 0.0
    ensures delta > 0.0
    ensures forall t: real {:trigger ScaledNear(f, p, k, share, t)} :: Abs(t) < delta ==> ScaledNear(f, p, k, share, t)
  {
    var e := Small(Abs(k) + 1.0, share);
    delta := Radius(f, 0.0, p, e);
    forall t: real | Abs(t) < delta
      ensures ScaledNear(f, p, k, share, t)
    {
      assert Near(f, 0.0, p, e, t);
      Scaled(k, Gap(f, 0.0, p, t), e, Abs(t), share);
    }
  }

  /** The increment of f is at most a per unit. */
  ghost predicate Lipschitz(f: real -> real, a: real, t: real) {
    Abs(f(t) - f(0.0)) <= Share(a, t)
  }

  lemma Bounded(f: real -> real, p: real) returns (delta: real)
    requires Derivative(f, 0.0, p)
    ensures delta > 0.0
    ensures forall t: real {:trigger Lipschitz(f, Abs(p) + 1.0, t)} {:trigger f(t)} ::
      Abs(t) < delta ==> Lipschitz(f, Abs(p) + 1.0, t)
  {
    delta := Radius(f, 0.0, p, 1.0);
    forall t: real | Abs(t) < delta
      ensures Lipschitz(f, Abs(p) + 1.0, t)
    {
      assert 0.0 + t == t && Near(f, 0.0, p, 1.0, t);
      Grows(f(t) - f(0.0), p, 1.0, t);
    }
  }

  lemma SecondAt(f: real -> real, g: real -> real, a: real, b: real, ab: real, dt: real, share: real, t: real)
    requires Lipschitz(f, a, t) && Lipschitz(g, b, t) && 0.0 <= a && 0.0 <= b
    requires ab == a * b && Abs(t) <= dt && ab * dt <= share
    ensures SecondNear(f, g, share, t)
  {
    Monotone(0.0, a, 0.0, b);
    Monotone(ab, ab, Abs(t), dt);
    SecondOrder(f(t) - f(0.0), g(t) - g(0.0), a, b, Abs(t), share);
  }

  lemma SecondRadius(f: real -> real, g: real -> real, p: real, q: real, share: real) returns (delta: real)
    requires Derivative(f, 0.0, p) && Derivative(g, 0.0, q) && share > 0.0
    ensures delta > 0.0
    ensures forall t: real {:trigger SecondNear(f, g, share, t)} :: Abs(t) < delta ==> SecondNear(f, g, share, t)
  {
    var a, b := Abs(p) + 1.0, Abs(q) + 1.0;
    var df := Bounded(f, p);
    var dg := Bounded(g, q);
    Monotone(1.0, a, 1.0, b);
    var ab := a * b;
    var dt := Small(ab, share);
    delta := Least(Least(df, dg), dt);
    forall t: real | Abs(t) < delta
      ensures SecondNear(f, g, share, t)
    {
      SecondAt(f, g, a, b, ab, dt, share, t);
    }
  }

  lemma Expand(f: real -> real, g: real -> real, h: real -> real, p: real, q: real, slope: real, t: real)
    requires h(t) == f(t) * g(t) && h(0.0) == f(0.0) * g(0.0) && slope == p * g(0.0) + f(0.0) * q
    ensures Gap(h, 0.0, slope, t)
         == ScaledGap(f, p, g(0.0), t) + ScaledGap(g, q, f(0.0), t) + SecondGap(f, g, t)
  {
    assert 0.0 + t == t;
    var f0, g0, f1, g1 := f(0.0), g(0.0), f(t), g(t);
    assert slope * t == p * g0 * t + f0 * q * t;
    assert g0 * (f1 - f0 - p * t) == g0 * f1 - g0 * f0 - p * g0 * t;
    assert f0 * (g1 - g0 - q * t) == f0 * g1 - f0 * g0 - f0 * q * t;
    assert (f1 - f0) * (g1 - g0) == f1 * g1 - f1 * g0 - f0 * g1 + f0 * g0;
  }

  lemma ProductNear(f: real -> real, g: real -> real, h: real -> real, p: real, q: real, slope: real,
                    eps: real, t: real)
    requires h(t) == f(t) * g(t) && h(0.0) == f(0.0) * g(0.0) && slope == p * g(0.0) + f(0.0) * q
    requires ScaledNear(f, p, g(0.0), eps / 3.0, t) && ScaledNear(g, q, f(0.0), eps / 3.0, t)
    requires SecondNear(f, g, eps / 3.0, t)
    ensures Near(h, 0.0, slope, eps, t)
  {
    Expand(f, g, h, p, q, slope, t);
    var u, v, w := ScaledGap(f, p, g(0.0), t), ScaledGap(g, q, f(0.0), t), SecondGap(f, g, t);
    AbsSum(u, v);
    AbsSum(u + v, w);
    ThirdShares(eps, t);
  }

  lemma ProductRule(f: real -> real, g: real -> real, h: real -> real, p: real, q: real, slope: real)
    requires Derivative(f, 0.0, p) && Derivative(g, 0.0, q) && slope == p * g(0.0) + f(0.0) * q
    requires forall t: real :: h(t) == f(t) * g(t)
    ensures Derivative(h, 0.0, slope)
  {
    forall eps: real | eps > 0.0
      ensures Close(h, 0.0, slope, eps)
    {
      var df := ScaledRadius(f, p, g(0.0), eps / 3.0);
      var dg := ScaledRadius(g, q, f(0.0), eps / 3.0);
      var dt := SecondRadius(f, g, p, q, eps / 3.0);
      var delta := Least(Least(df, dg), dt);
      forall t: real | Abs(t) < delta
        ensures Near(h, 0.0, slope, eps, t)
      {
        ProductNear(f, g, h, p, q, slope, eps, t);
      }
      assert Within(h, 0.0, slope, eps, delta);
    }
  }

  // ---------------------------------------------------------------- composition

  /** The error of the outer function at the inner function's increment. */
  function OuterGap(f: real -> real, g: real -> real, s: real, t: real): real {
    g(f(t)) - g(f(0.0)) - s * (f(t) - f(0.0))
  }

  ghost predicate OuterNear(f: real -> real, g: real -> real, s: real, share: real, t: real) {
    Abs(OuterGap(f, g, s, t)) <= Share(share, t)
  }

  lemma OuterBound(u: real, x: real, e: real, a: real, size: real, share: real)
    requires Abs(u) <= e * Abs(x) && Abs(x) <= a * size && 0.0 <= e && 0.0 <= size && a * e <= share && 0.0 <= a
    ensures Abs(u) <= share * size
  {
    Monotone(e, e, Abs(x), a * size);
    assert e * (a * size) == a * e * size;
    Monotone(0.0, a, 0.0, e);
    Monotone(a * e, share, size, size);
  }

  lemma OuterAt(f: real -> real, g: real -> real, s: real, e: real, a: real, dt: real, dg: real, share: real, t: real)
    requires Lipschitz(f, a, t) && Within(g, f(0.0), s, e, dg)
    requires 0.0 <= a && Abs(t) <= dt && a * dt < dg && a * e <= share && 0.0 <= e
    ensures OuterNear(f, g, s, share, t)
  {
    var x := f(t) - f(0.0);
    Monotone(a, a, Abs(t), dt);
    assert f(0.0) + x == f(t) && Near(g, f(0.0), s, e, x);
    OuterBound(Gap(g, f(0.0), s, x), x, e, a, Abs(t), share);
  }

  lemma OuterRadius(f: real -> real, g: real -> real, p: real, s: real, share: real) returns (delta: real)
    requires Derivative(f, 0.0, p) && Derivative(g, f(0.0), s) && share > 0.0
    ensures delta > 0.0
    ensures forall t: real {:trigger OuterNear(f, g, s, share, t)} :: Abs(t) < delta ==> OuterNear(f, g, s, share, t)
  {
    var a := Abs(p) + 1.0;
    var e := Small(a, share);
    var dg := Radius(g, f(0.0), s, e);
    var df := Bounded(f, p);
    var dt := Small(a, dg / 2.0);
    delta := Least(df, dt);
    forall t: real | Abs(t) < delta
      ensures OuterNear(f, g, s, share, t)
    {
      OuterAt(f, g, s, e, a, dt, dg, share, t);
    }
  }

  lemma Regroup(f: real -> real, g: real -> real, h: real -> real, p: real, s: real, slope: real, t: real)
    requires h(t) == g(f(t)) && h(0.0) == g(f(0.0)) && slope == s * p
    ensures Gap(h, 0.0, slope, t) == OuterGap(f, g, s, t) + ScaledGap(f, p, s, t)
  {
    assert 0.0 + t == t;
    var x := f(t) - f(0.0);
    assert s * (x - p * t) == s * x - s * p * t;
  }

  lemma ChainNear(f: real -> real, g: real -> real, h: real -> real, p: real, s: real, slope: real, eps: real, t: real)
    requires h(t) == g(f(t)) && h(0.0) == g(f(0.0)) && slope == s * p
    requires OuterNear(f, g, s, eps / 2.0, t) && ScaledNear(f, p, s, eps / 2.0, t)
    ensures Near(h, 0.0, slope, eps, t)
  {
    Regroup(f, g, h, p, s, slope, t);
    AbsSum(OuterGap(f, g, s, t), ScaledGap(f, p, s, t));
    HalfShares(eps, t);
  }

  lemma ChainRule(f: real -> real, g: real -> real, h: real -> real, p: real, s: real, slope: real)
    requires Derivative(f, 0.0, p) && Derivative(g, f(0.0), s) && slope == s * p
    requires forall t: real :: h(t) == g(f(t))
    ensures Derivative(h, 0.0, slope)
  {
    forall eps: real | eps > 0.0
      ensures Close(h, 0.0, slope, eps)
    {
      var df := ScaledRadius(f, p, s, eps / 2.0);
      var dg := OuterRadius(f, g, p, s, eps / 2.0);
      var delta := Least(df, dg);
      forall t: real | Abs(t) < delta
        ensures Near(h, 0.0, slope, eps, t)
      {
        ChainNear(f, g, h, p, s, slope, eps, t);
      }
      assert Within(h, 0.0, slope, eps, delta);
    }
  }
}
