/** The sigmoid of vneuro.h, and that the code's derivative of it is its derivative. */
module NeuroSigmoid {
  import opened NeuroCalculus
  import opened NeuroNetwork
  import opened NeuroSums
  import opened NeuroGradient
  import opened NeuroDerivative

  /** std::exp, as far as the sigmoid needs it: positive, turning signs into reciprocals, and its own derivative. */
  ghost predicate IsExponential(exp: real -> real) {
    forall x: real :: ExponentialAt(exp, x)
  }

  ghost predicate ExponentialAt(exp: real -> real, x: real) {
    exp(x) > 0.0 && exp(x) * exp(-x) == 1.0 && Derivative(exp, x, exp(x))
  }

  /** sigmoid: a branch for each sign, so that the exponential never overflows. */
  function Sigmoid(exp: real -> real, beta: real): real -> real {
    value => Logistic(exp, Scaled(beta, value))
  }

  function Scaled(beta: real, value: real): real {
    beta * value
  }

  function Logistic(exp: real -> real, scaled: real): real {
    if scaled >= 0.0 then Quotient(1.0, 1.0 + exp(-scaled)) else Quotient(exp(scaled), 1.0 + exp(scaled))
  }

  function Quotient(a: real, b: real): real {
    if b == 0.0 then 0.0 else a / b
  }

  function Reciprocal(u: real): real {
    Quotient(1.0, u)
  }

  // ---------------------------------------------------------------- reciprocals

  lemma DivideBy(a: real, b: real, c: real)
    requires b > 0.0 && a == c * b
    ensures a / b == c
  {
  }

  /** By how much the reciprocal misses its linear approximation. */
  lemma ReciprocalGap(u: real, h: real)
    requires u > 0.0 && u + h > 0.0
    ensures u * u * (u + h) > 0.0
    ensures Gap(Reciprocal, u, -(1.0 / (u * u)), h) == h * h / (u * u * (u + h))
  {
    var r, s := 1.0 / u, 1.0 / (u + h);
    assert r * u == 1.0 && s * (u + h) == 1.0;
    Positive(u, u);
    Positive(u * u, u + h);
    DivideBy(1.0, u * u, r * r);
    assert s - r + r * r * h == h * h * (r * r * s) by { GapAlgebra(u, h, r, s); }
    InverseOfThree(u, h, r, s);
    DivideBy(h * h, u * u * (u + h), h * h * (r * r * s));
  }

  lemma Positive(a: real, b: real)
    requires a > 0.0 && b > 0.0
    ensures a * b > 0.0
  {
  }

  lemma GapAlgebra(u: real, h: real, r: real, s: real)
    requires r * u == 1.0 && s * (u + h) == 1.0
    ensures s - r + r * r * h == h * h * (r * r * s)
  {
    // h r s == r - s, since s u + s h == 1 and r u == 1
    assert r * (s * (u + h)) == r;
    assert r * (s * (u + h)) == s * (r * u) + h * r * s;
    assert h * r * s == r - s;
    assert h * h * (r * r * s) == (h * r) * (h * r * s);
    assert (h * r) * (r - s) == r * r * h - h * r * s;
  }

  lemma InverseOfThree(u: real, h: real, r: real, s: real)
    requires r * u == 1.0 && s * (u + h) == 1.0
    ensures h * h * (r * r * s) * (u * u * (u + h)) == h * h
  {
    assert (r * r * s) * (u * u * (u + h)) == (r * u) * (r * u) * (s * (u + h));
    var k, p := r * r * s, u * u * (u + h);
    assert h * h * k * p == h * h * (k * p);
  }

  lemma SquareBound(eps: real, size: real, k: real, p: real)
    requires 0.0 <= size <= eps * k && 0.0 < k <= p && eps > 0.0
    ensures size * size <= eps * size * p
  {
    Monotone(size, eps * k, size, size);
    Positive(eps, k);
    Monotone(0.0, eps, 0.0, size);
    Monotone(eps * size, eps * size, k, p);
    assert eps * k * size == eps * size * k;
  }

  lemma ProductPositive(a: real, b: real, w: real)
    requires a > 0.0 && b > 0.0 && w == a * b
    ensures w > 0.0
  {
  }

  lemma CubeBelow(u: real, w: real, v: real)
    requires u > 0.0 && v >= u / 2.0 && w == u * u
    ensures 0.0 < w * u / 2.0 <= w * v
  {
    ProductPositive(u, u, w);
    HalfBelow(w, u, v);
  }

  lemma HalfBelow(w: real, u: real, v: real)
    requires w > 0.0 && u > 0.0 && v >= u / 2.0
    ensures 0.0 < w * u / 2.0 <= w * v
  {
    Positive(w, u);
    assert w * v - w * u / 2.0 == w * (v - u / 2.0);
    if v > u / 2.0 {
      Positive(w, v - u / 2.0);
    }
  }

  lemma SquareOfAbs(h: real)
    ensures h * h == Abs(h) * Abs(h) >= 0.0
  {
    AbsMul(h, h);
  }

  lemma MissBound(eps: real, h: real, k: real, p: real)
    requires eps > 0.0 && 0.0 < k <= p && Abs(h) <= eps * k
    ensures Abs(h * h / p) <= eps * Abs(h)
  {
    SquareBound(eps, Abs(h), k, p);
    SquareOfAbs(h);
    BoundQuotient(h * h, p, eps * Abs(h));
  }

  /** The radius at which the reciprocal is within eps. */
  lemma ReciprocalNear(u: real, eps: real, h: real, k: real, slope: real)
    requires u > 0.0 && eps > 0.0 && Abs(h) < u / 2.0 && k == u * u * u / 2.0 && Abs(h) <= eps * k
    requires slope == -(1.0 / (u * u))
    ensures Near(Reciprocal, u, slope, eps, h)
  {
    ReciprocalGap(u, h);
    CubeBelow(u, u * u, u + h);
    MissBound(eps, h, k, u * u * (u + h));
  }

  lemma BoundQuotient(a: real, p: real, bound: real)
    requires p > 0.0 && 0.0 <= a <= bound * p
    ensures Abs(a / p) <= bound
  {
    var x := a / p;
    assert x * p == a;
    OrderByProduct(x, bound, p);
    OrderByProduct(0.0, x, p);
  }

  lemma OrderByProduct(x: real, y: real, p: real)
    requires p > 0.0 && x * p <= y * p
    ensures x <= y
  {
    if x > y {
      Positive(x - y, p);
      assert false;
    }
  }

  lemma ReciprocalRule(u: real)
    requires u > 0.0
    ensures Derivative(Reciprocal, u, -(1.0 / (u * u)))
  {
    var slope := -(1.0 / (u * u));
    Positive(u, u);
    Positive(u * u, u);
    forall eps: real | eps > 0.0
      ensures Close(Reciprocal, u, slope, eps)
    {
      var k := u * u * u / 2.0;
      Positive(eps, k);
      var delta := Least(u / 2.0, eps * k);
      forall h: real | Abs(h) < delta
        ensures Near(Reciprocal, u, slope, eps, h)
      {
        ReciprocalNear(u, eps, h, k, slope);
      }
      assert Within(Reciprocal, u, slope, eps, delta);
    }
  }

  // ---------------------------------------------------------------- the sigmoid

  /** Both branches are the logistic function. */
  lemma BothBranches(exp: real -> real, y: real)
    requires IsExponential(exp)
    ensures exp(-y) > 0.0 && Logistic(exp, y) == Reciprocal(1.0 + exp(-y))
  {
    assert ExponentialAt(exp, y) && ExponentialAt(exp, -y);
    if y < 0.0 {
      SameQuotient(exp(y), exp(-y));
    }
  }

  lemma SameQuotient(e: real, f: real)
    requires e > 0.0 && f > 0.0 && e * f == 1.0
    ensures Quotient(e, 1.0 + e) == Reciprocal(1.0 + f)
  {
    var r := 1.0 / (1.0 + f);
    assert r * (1.0 + f) == 1.0;
    assert e * (r * (1.0 + f)) == r * e + r * (e * f);
    DivideBy(e, 1.0 + e, r);
  }

  lemma Shifted(f: real -> real, g: real -> real, x: real, slope: real)
    requires Derivative(g, 0.0, slope) && forall t: real :: g(t) == f(x + t)
    ensures Derivative(f, x, slope)
  {
    forall eps: real | eps > 0.0
      ensures Close(f, x, slope, eps)
    {
      var delta := Radius(g, 0.0, slope, eps);
      forall h: real | Abs(h) < delta
        ensures Near(f, x, slope, eps, h)
      {
        assert Near(g, 0.0, slope, eps, h) && 0.0 + h == h && x + 0.0 == x;
      }
      assert Within(f, x, slope, eps, delta);
    }
  }

  function Line(beta: real, x: real): real -> real {
    t => -Scaled(beta, x + t)
  }

  function Decay(exp: real -> real, beta: real, x: real): real -> real {
    t => exp(Line(beta, x)(t))
  }

  /** The denominator of the sigmoid on the way from x, as a function of the distance. */
  function Denominator(exp: real -> real, beta: real, x: real): real -> real {
    t => 1.0 + Decay(exp, beta, x)(t)
  }

  lemma Distribute(beta: real, x: real, t: real, z: real)
    requires z == x + t
    ensures -Scaled(beta, z) == -Scaled(beta, x) + (-beta) * t
  {
    assert beta * z == beta * x + beta * t;
  }

  lemma LineDerivative(beta: real, x: real)
    ensures Derivative(Line(beta, x), 0.0, -beta) && Line(beta, x)(0.0) == -Scaled(beta, x)
  {
    var f := Line(beta, x);
    forall t: real
      ensures f(t) == -Scaled(beta, x) + (-beta) * t
    {
      Distribute(beta, x, t, x + t);
    }
    assert x + 0.0 == x;
    Affine(f, -Scaled(beta, x), -beta);
  }

  lemma DecayDerivative(exp: real -> real, beta: real, x: real, y: real, e: real, p: real)
    requires ExponentialAt(exp, y) && y == -Scaled(beta, x) && e == exp(y) && p == e * -beta
    ensures Derivative(Decay(exp, beta, x), 0.0, p) && Decay(exp, beta, x)(0.0) == e
  {
    LineDerivative(beta, x);
    Chained(Line(beta, x), exp, Decay(exp, beta, x), y, -beta, e, p);
  }

  /** The chain rule, with every value named. */
  lemma Chained(f: real -> real, g: real -> real, h: real -> real, u: real, p: real, s: real, slope: real)
    requires Derivative(f, 0.0, p) && f(0.0) == u && Derivative(g, u, s) && slope == s * p
    requires forall t: real :: h(t) == g(f(t))
    ensures Derivative(h, 0.0, slope)
  {
    ChainRule(f, g, h, p, s, slope);
  }

  lemma DenominatorDerivative(exp: real -> real, beta: real, x: real, y: real, e: real, p: real)
    requires ExponentialAt(exp, y) && y == -Scaled(beta, x) && e == exp(y) && p == e * -beta
    ensures Derivative(Denominator(exp, beta, x), 0.0, p) && Denominator(exp, beta, x)(0.0) == 1.0 + e
  {
    var one: real -> real := t => 1.0;
    DecayDerivative(exp, beta, x, y, e, p);
    Affine(one, 1.0, 0.0);
    SumRule(one, Decay(exp, beta, x), Denominator(exp, beta, x), 0.0, p, p);
  }

  lemma LogisticSlope(beta: real, e: real, u: real, s: real, slope: real)
    requires e > 0.0 && u == 1.0 + e && s == 1.0 / u && slope == beta * s * (1.0 - s)
    ensures slope == -(1.0 / (u * u)) * (e * -beta)
  {
    assert s * u == 1.0;
    Positive(u, u);
    assert s * s * (u * u) == (s * u) * (s * u);
    DivideBy(1.0, u * u, s * s);
    assert 1.0 - s == s * e by { assert s * u == s + s * e; }
    assert beta * s * (s * e) == s * s * (e * beta);
    assert -(s * s) * (e * -beta) == s * s * (e * beta);
  }

  /** The derivative that the code computes from the output is the derivative of the sigmoid, at every place and for
      every steepness. */
  lemma SigmoidIsSmooth(exp: real -> real, beta: real)
    requires IsExponential(exp)
    ensures Smooth(Squash(Sigmoid(exp, beta), SlopeFor(beta)))
  {
    var q := Squash(Sigmoid(exp, beta), SlopeFor(beta));
    forall x: real
      ensures Derivative(q.sigma, x, q.slope(q.sigma(x)))
    {
      SigmoidDerivative(exp, beta, x);
    }
  }

  function Along(exp: real -> real, beta: real, x: real): real -> real {
    t => Reciprocal(Denominator(exp, beta, x)(t))
  }

  lemma AlongDerivative(exp: real -> real, beta: real, x: real, y: real, e: real, p: real, r: real, slope: real)
    requires ExponentialAt(exp, y) && y == -Scaled(beta, x) && e == exp(y) && p == e * -beta
    requires Derivative(Reciprocal, 1.0 + e, r) && slope == r * p
    ensures Derivative(Along(exp, beta, x), 0.0, slope)
  {
    DenominatorDerivative(exp, beta, x, y, e, p);
    Chained(Denominator(exp, beta, x), Reciprocal, Along(exp, beta, x), 1.0 + e, p, r, slope);
  }

  lemma AlongIsSigmoid(exp: real -> real, beta: real, x: real, t: real)
    requires IsExponential(exp)
    ensures Along(exp, beta, x)(t) == Sigmoid(exp, beta)(x + t)
  {
    var v := Scaled(beta, x + t);
    BothBranches(exp, v);
    assert Line(beta, x)(t) == -v;
    assert Decay(exp, beta, x)(t) == exp(-v);
    assert Denominator(exp, beta, x)(t) == 1.0 + exp(-v);
    assert Sigmoid(exp, beta)(x + t) == Logistic(exp, v);
  }

  lemma SigmoidDerivative(exp: real -> real, beta: real, x: real)
    requires IsExponential(exp)
    ensures Derivative(Sigmoid(exp, beta), x, SlopeFor(beta)(Sigmoid(exp, beta)(x)))
  {
    var y := -Scaled(beta, x);
    var e := exp(y);
    var u := 1.0 + e;
    var s, slope := Sigmoid(exp, beta)(x), SlopeFor(beta)(Sigmoid(exp, beta)(x));
    BothBranches(exp, Scaled(beta, x));
    assert ExponentialAt(exp, y);
    LogisticSlope(beta, e, u, s, slope);
    ReciprocalRule(u);
    AlongDerivative(exp, beta, x, y, e, e * -beta, -(1.0 / (u * u)), slope);
    forall t: real
      ensures Along(exp, beta, x)(t) == Sigmoid(exp, beta)(x + t)
    {
      AlongIsSigmoid(exp, beta, x, t);
    }
    Shifted(Sigmoid(exp, beta), Along(exp, beta, x), x, slope);
  }

  /** So the gradient of a network with this sigmoid is the gradient of its loss. */
  lemma SigmoidGradient(exp: real -> real, beta: real, p: Params, d: Params, input: seq<real>, expected: seq<real>,
                        layers: seq<nat>)
    requires IsExponential(exp) && Shaped(p, layers) && Shaped(d, layers) && |input| == layers[0]
    ensures
      var q := Squash(Sigmoid(exp, beta), SlopeFor(beta));
      Derivative(LossAlong(q, p, d, input, expected), 0.0, Pairing(Gradient(q, p, input, expected), d))
  {
    SigmoidIsSmooth(exp, beta);
    GradientIsDerivative(Squash(Sigmoid(exp, beta), SlopeFor(beta)), p, d, input, expected, layers);
  }
}
