/** The tangent of NeuroGradient is the derivative of the loss, and so the gradient is the gradient. */
module NeuroDerivative {
  import opened NeuroCalculus
  import opened NeuroNetwork
  import opened NeuroSums
  import opened NeuroGradient

  /** The squashing function has the derivative that the code computes from its output. */
  ghost predicate Smooth(q: Squash) {
    forall x: real :: Derivative(q.sigma, x, q.slope(q.sigma(x)))
  }

  /** What the theorems below ask of a squashing function can be met. */
  lemma LinearIsSmooth(g: real)
    ensures Smooth(Squash(x => g * x, o => g))
  {
    var q := Squash(x => g * x, o => g);
    forall x: real, eps: real | eps > 0.0
      ensures Close(q.sigma, x, g, eps)
    {
      forall h: real
        ensures Near(q.sigma, x, g, eps, h)
      {
        assert Gap(q.sigma, x, g, h) == g * (x + h) - g * x - g * h == 0.0;
        assert Share(eps, h) >= 0.0;
      }
      assert Within(q.sigma, x, g, eps, 1.0);
    }
  }

  function Coord(v: real -> seq<real>, i: int): real -> real {
    t => At(v(t), i)
  }

  function RowOf(m: real -> Matrix, v: real -> seq<real>, row: int, n: nat): real -> real {
    t => RowDot(m(t), row, v(t), n)
  }

  function Entry(m: real -> Matrix, row: int, col: int): real -> real {
    t => m(t).Get(row, col)
  }

  function Term(m: real -> Matrix, v: real -> seq<real>, row: int, col: int): real -> real {
    t => Entry(m, row, col)(t) * Coord(v, col)(t)
  }

  ghost predicate Line(f: real -> real, a: real, b: real) {
    forall t: real :: f(t) == a + b * t
  }

  /** A matrix entry that moves along a straight line. */
  ghost predicate Straight(m: real -> Matrix, dm: Matrix, row: int, col: int) {
    Line(Entry(m, row, col), Entry(m, row, col)(0.0), dm.Get(row, col))
  }

  lemma LineTimes(f: real -> real, g: real -> real, h: real -> real, a: real, b: real, dg: real, slope: real)
    requires Line(f, a, b) && Derivative(g, 0.0, dg) && slope == b * g(0.0) + a * dg
    requires forall t: real :: h(t) == f(t) * g(t)
    ensures Derivative(h, 0.0, slope)
  {
    Affine(f, a, b);
    assert f(0.0) == a;
    ProductRule(f, g, h, b, dg, slope);
  }

  /** The derivative of one term of a weighted sum. */
  function TermSlope(m: Matrix, v: seq<real>, dm: Matrix, dv: seq<real>, row: int, col: int): real {
    dm.Get(row, col) * At(v, col) + m.Get(row, col) * At(dv, col)
  }

  lemma TermDerivative(m: real -> Matrix, v: real -> seq<real>, dm: Matrix, dv: seq<real>, row: int, col: int)
    requires Straight(m, dm, row, col) && Derivative(Coord(v, col), 0.0, At(dv, col))
    ensures Derivative(Term(m, v, row, col), 0.0, TermSlope(m(0.0), v(0.0), dm, dv, row, col))
  {
    LineTimes(Entry(m, row, col), Coord(v, col), Term(m, v, row, col), Entry(m, row, col)(0.0), dm.Get(row, col),
              At(dv, col), TermSlope(m(0.0), v(0.0), dm, dv, row, col));
  }

  function RowSlope(m: Matrix, v: seq<real>, dm: Matrix, dv: seq<real>, row: int, n: nat): real {
    RowDot(dm, row, v, n) + RowDot(m, row, dv, n)
  }

  lemma RowSlopeStep(m: Matrix, v: seq<real>, dm: Matrix, dv: seq<real>, row: int, n: nat)
    ensures RowSlope(m, v, dm, dv, row, n + 1) == RowSlope(m, v, dm, dv, row, n) + TermSlope(m, v, dm, dv, row, n)
  {
  }

  lemma RowStep(m: real -> Matrix, v: real -> seq<real>, row: int, n: nat, t: real)
    ensures RowOf(m, v, row, n + 1)(t) == RowOf(m, v, row, n)(t) + Term(m, v, row, n)(t)
  {
    assert RowOf(m, v, row, n + 1)(t) == RowDot(m(t), row, v(t), n + 1);
    assert RowOf(m, v, row, n)(t) == RowDot(m(t), row, v(t), n);
    assert Entry(m, row, n)(t) == m(t).Get(row, n) && Coord(v, n)(t) == At(v(t), n);
    assert Term(m, v, row, n)(t) == Entry(m, row, n)(t) * Coord(v, n)(t);
  }

  lemma {:induction false} RowDerivative(m: real -> Matrix, v: real -> seq<real>, dm: Matrix, dv: seq<real>, row: int,
                                         n: nat)
    requires forall c :: 0 <= c < n ==> Straight(m, dm, row, c)
    requires forall c :: 0 <= c < n ==> Derivative(Coord(v, c), 0.0, At(dv, c))
    ensures Derivative(RowOf(m, v, row, n), 0.0, RowSlope(m(0.0), v(0.0), dm, dv, row, n))
  {
    if n == 0 {
      forall t: real
        ensures RowOf(m, v, row, 0)(t) == 0.0 + 0.0 * t
      {
        assert RowOf(m, v, row, 0)(t) == RowDot(m(t), row, v(t), 0);
      }
      Affine(RowOf(m, v, row, 0), 0.0, 0.0);
    } else {
      var c := n - 1;
      RowDerivative(m, v, dm, dv, row, c);
      TermDerivative(m, v, dm, dv, row, c);
      AddTerm(m, v, dm, dv, row, c);
    }
  }

  lemma AddTerm(m: real -> Matrix, v: real -> seq<real>, dm: Matrix, dv: seq<real>, row: int, n: nat)
    requires Derivative(RowOf(m, v, row, n), 0.0, RowSlope(m(0.0), v(0.0), dm, dv, row, n))
    requires Derivative(Term(m, v, row, n), 0.0, TermSlope(m(0.0), v(0.0), dm, dv, row, n))
    ensures Derivative(RowOf(m, v, row, n + 1), 0.0, RowSlope(m(0.0), v(0.0), dm, dv, row, n + 1))
  {
    forall t: real
      ensures RowOf(m, v, row, n + 1)(t) == RowOf(m, v, row, n)(t) + Term(m, v, row, n)(t)
    {
      RowStep(m, v, row, n, t);
    }
    RowSlopeStep(m(0.0), v(0.0), dm, dv, row, n);
    SumRule(RowOf(m, v, row, n), Term(m, v, row, n), RowOf(m, v, row, n + 1),
            RowSlope(m(0.0), v(0.0), dm, dv, row, n), TermSlope(m(0.0), v(0.0), dm, dv, row, n),
            RowSlope(m(0.0), v(0.0), dm, dv, row, n + 1));
  }

  // ---------------------------------------------------------------- the network along p + t * d

  function MovingMatrix(p: Params, d: Params, l: nat): real -> Matrix
    requires l < |p.weights| == |p.biases| == |d.weights| == |d.biases|
  {
    t => Shift(p, d, t).weights[l]
  }

  function MovingBias(p: Params, d: Params, l: nat): real -> seq<real>
    requires l < |p.weights| == |p.biases| == |d.weights| == |d.biases|
  {
    t => Shift(p, d, t).biases[l]
  }

  function Moving(q: Squash, p: Params, d: Params, input: seq<real>, l: nat): real -> seq<real>
    requires l <= |p.weights| == |p.biases| == |d.weights| == |d.biases|
  {
    t => Forward(q, Shift(p, d, t), input, l)
  }

  lemma ShiftNothing(p: Params, d: Params)
    requires |p.weights| == |p.biases| == |d.weights| == |d.biases|
    ensures Shift(p, d, 0.0) == p
  {
    forall l | 0 <= l < |p.weights|
      ensures Shift(p, d, 0.0).weights[l] == p.weights[l] && Shift(p, d, 0.0).biases[l] == p.biases[l]
    {
      AddNothing(p.weights[l].data, d.weights[l].data);
      AddNothing(p.biases[l], d.biases[l]);
    }
    assert Shift(p, d, 0.0).weights == p.weights && Shift(p, d, 0.0).biases == p.biases;
  }

  lemma AddNothing(v: seq<real>, d: seq<real>)
    ensures Add(v, d, 0.0) == v
  {
  }

  lemma MovesStraight(p: Params, d: Params, layers: seq<nat>, l: nat, row: nat, col: nat)
    requires l < |p.weights| == |p.biases| == |d.weights| == |d.biases| == |layers| - 1
    requires LayerShaped(p, layers, l) && LayerShaped(d, layers, l) && row < layers[l + 1] && col < layers[l]
    ensures Straight(MovingMatrix(p, d, l), d.weights[l], row, col)
  {
    var f := Entry(MovingMatrix(p, d, l), row, col);
    ShiftGet(p, d, 0.0, l, row, col);
    forall t: real
      ensures f(t) == f(0.0) + d.weights[l].Get(row, col) * t
    {
      ShiftGet(p, d, t, l, row, col);
    }
  }

  lemma BiasDerivative(p: Params, d: Params, layers: seq<nat>, l: nat, row: nat)
    requires l < |p.weights| == |p.biases| == |d.weights| == |d.biases| == |layers| - 1
    requires LayerShaped(p, layers, l) && row < layers[l + 1]
    ensures Derivative(Coord(MovingBias(p, d, l), row), 0.0, At(d.biases[l], row))
  {
    var f := Coord(MovingBias(p, d, l), row);
    forall t: real
      ensures f(t) == At(p.biases[l], row) + At(d.biases[l], row) * t
    {
      assert f(t) == At(MovingBias(p, d, l)(t), row) == At(Add(p.biases[l], d.biases[l], t), row);
    }
    Affine(f, At(p.biases[l], row), At(d.biases[l], row));
  }

  function MovingInput(q: Squash, p: Params, d: Params, input: seq<real>, l: nat, row: nat): real -> real
    requires l < |p.weights| == |p.biases| == |d.weights| == |d.biases|
  {
    t => PreActivation(Shift(p, d, t), l, Forward(q, Shift(p, d, t), input, l), row)
  }

  /** The weighted input of one neuron. */
  lemma InputDerivative(q: Squash, p: Params, d: Params, input: seq<real>, layers: seq<nat>, l: nat, row: nat)
    requires l < |p.weights| == |p.biases| == |d.weights| == |d.biases| == |layers| - 1
    requires LayerShaped(p, layers, l) && LayerShaped(d, layers, l) && row < layers[l + 1]
    requires forall c :: 0 <= c < layers[l] ==>
      Derivative(Coord(Moving(q, p, d, input, l), c), 0.0, At(Tangent(q, p, d, input, l), c))
    ensures Derivative(MovingInput(q, p, d, input, l, row), 0.0, At(InputTangent(q, p, d, input, l), row))
  {
    var m, v := MovingMatrix(p, d, l), Moving(q, p, d, input, l);
    var a, ta, cols := Forward(q, p, input, l), Tangent(q, p, d, input, l), layers[l];
    forall c | 0 <= c < cols
      ensures Straight(m, d.weights[l], row, c)
    {
      MovesStraight(p, d, layers, l, row, c);
    }
    RowDerivative(m, v, d.weights[l], ta, row, cols);
    ShiftNothing(p, d);
    BiasDerivative(p, d, layers, l, row);
    SumRule(Coord(MovingBias(p, d, l), row), RowOf(m, v, row, cols), MovingInput(q, p, d, input, l, row),
            At(d.biases[l], row), RowSlope(p.weights[l], a, d.weights[l], ta, row, cols),
            PreTangent(p, d, l, a, ta, row));
  }

  /** Neuron i of layer l has its tangent as derivative. */
  ghost predicate Tangential(q: Squash, p: Params, d: Params, input: seq<real>, l: nat, i: nat)
    requires l <= |p.weights| == |p.biases| == |d.weights| == |d.biases|
  {
    Derivative(Coord(Moving(q, p, d, input, l), i), 0.0, At(Tangent(q, p, d, input, l), i))
  }

  ghost predicate AllTangential(q: Squash, p: Params, d: Params, input: seq<real>, l: nat, n: nat)
    requires l <= |p.weights| == |p.biases| == |d.weights| == |d.biases|
  {
    forall c: nat :: c < n ==> Tangential(q, p, d, input, l, c)
  }

  lemma InputSlope(q: Squash, p: Params, d: Params, input: seq<real>, layers: seq<nat>, l: nat, i: nat)
    requires l < |p.weights| == |p.biases| == |d.weights| == |d.biases| == |layers| - 1
    requires LayerShaped(p, layers, l) && LayerShaped(d, layers, l) && i < layers[l + 1]
    requires AllTangential(q, p, d, input, l, layers[l])
    ensures Derivative(MovingInput(q, p, d, input, l, i), 0.0, At(InputTangent(q, p, d, input, l), i))
  {
    forall c | 0 <= c < layers[l]
      ensures Derivative(Coord(Moving(q, p, d, input, l), c), 0.0, At(Tangent(q, p, d, input, l), c))
    {
      assert Tangential(q, p, d, input, l, c);
    }
    InputDerivative(q, p, d, input, layers, l, i);
  }

  /** The tangents of a layer as slopes times input tangents. */
  lemma TangentFactors(q: Squash, p: Params, d: Params, input: seq<real>, layers: seq<nat>, l: nat, n: nat, i: nat)
    returns (u: seq<real>, z: seq<real>)
    requires l < |p.weights| == |p.biases| == |d.weights| == |d.biases| == |layers| - 1 && n == l + 1
    requires LayerShaped(p, layers, l) && LayerShaped(d, layers, l) && i < layers[n]
    requires AllTangential(q, p, d, input, l, layers[l])
    ensures Tangent(q, p, d, input, n) == Hadamard(u, z)
    ensures Derivative(MovingInput(q, p, d, input, l, i), 0.0, At(z, i))
    ensures i < |u| && At(u, i) == NeuronSlope(q, p, input, n, i)
  {
    u, z := Slopes(q, Forward(q, p, input, n)), InputTangent(q, p, d, input, l);
    SlopeOfNeuron(q, p, input, n, i);
    InputSlope(q, p, d, input, layers, l, i);
  }

  lemma NeuronSlopes(q: Squash, p: Params, d: Params, input: seq<real>, layers: seq<nat>, l: nat, n: nat, i: nat)
    returns (z: real, s: real, slope: real)
    requires l < |p.weights| == |p.biases| == |d.weights| == |d.biases| == |layers| - 1 && n == l + 1
    requires LayerShaped(p, layers, l) && LayerShaped(d, layers, l) && i < layers[n]
    requires AllTangential(q, p, d, input, l, layers[l])
    ensures Derivative(MovingInput(q, p, d, input, l, i), 0.0, z)
    ensures s == NeuronSlope(q, p, input, n, i) && slope == s * z && slope == At(Tangent(q, p, d, input, n), i)
  {
    var u, v := TangentFactors(q, p, d, input, layers, l, n, i);
    z, s, slope := At(v, i), At(u, i), At(Hadamard(u, v), i);
    HadamardAt(u, v, i);
  }

  lemma NextTangential(q: Squash, p: Params, d: Params, input: seq<real>, layers: seq<nat>, l: nat, n: nat, i: nat)
    requires l < |p.weights| == |p.biases| == |d.weights| == |d.biases| == |layers| - 1 && Smooth(q) && n == l + 1
    requires LayerShaped(p, layers, l) && LayerShaped(d, layers, l) && i < layers[n]
    requires AllTangential(q, p, d, input, l, layers[l])
    ensures Tangential(q, p, d, input, n, i)
  {
    var z, s, slope := NeuronSlopes(q, p, d, input, layers, l, n, i);
    SquashDerivative(q, p, d, input, layers, n, i, z, s, slope);
  }

  /** Every activation is differentiable along d, and its derivative is the tangent's entry. */
  lemma {:induction false} ActivationDerivative(q: Squash, p: Params, d: Params, input: seq<real>, layers: seq<nat>,
                                                l: nat, i: nat)
    requires Shaped(p, layers) && Shaped(d, layers) && Smooth(q) && |input| == layers[0]
    requires l < |layers| && i < layers[l]
    ensures Tangential(q, p, d, input, l, i)
    decreases l
  {
    if l == 0 {
      Affine(Coord(Moving(q, p, d, input, 0), i), At(input, i), 0.0);
    } else {
      var k := l - 1;
      assert LayerShaped(p, layers, k) && LayerShaped(d, layers, k);
      forall c: nat | c < layers[k]
        ensures Tangential(q, p, d, input, k, c)
      {
        ActivationDerivative(q, p, d, input, layers, k, c);
      }
      NextTangential(q, p, d, input, layers, k, l, i);
    }
  }

  /** The slope of the activation of neuron i of layer l. */
  function NeuronSlope(q: Squash, p: Params, input: seq<real>, l: nat, i: int): real
    requires 0 < l <= |p.weights| == |p.biases|
  {
    q.slope(q.sigma(PreActivation(p, l - 1, Forward(q, p, input, l - 1), i)))
  }

  lemma HadamardAt(u: seq<real>, v: seq<real>, i: nat)
    requires i < |u|
    ensures At(Hadamard(u, v), i) == At(u, i) * At(v, i)
  {
  }

  lemma SlopeOfNeuron(q: Squash, p: Params, input: seq<real>, l: nat, i: nat)
    requires 0 < l <= |p.weights| == |p.biases| && i < p.weights[l - 1].rows
    ensures i < |Slopes(q, Forward(q, p, input, l))|
    ensures At(Slopes(q, Forward(q, p, input, l)), i) == NeuronSlope(q, p, input, l, i)
  {
    var a := Forward(q, p, input, l - 1);
    assert At(Forward(q, p, input, l), i) == q.sigma(PreActivation(p, l - 1, a, i));
  }

  lemma MovingAt(q: Squash, p: Params, d: Params, input: seq<real>, layers: seq<nat>, l: nat, i: nat, t: real)
    requires 0 < l <= |p.weights| == |p.biases| == |d.weights| == |d.biases| == |layers| - 1
    requires LayerShaped(p, layers, l - 1) && i < layers[l]
    ensures Coord(Moving(q, p, d, input, l), i)(t) == q.sigma(MovingInput(q, p, d, input, l - 1, i)(t))
  {
    assert Coord(Moving(q, p, d, input, l), i)(t) == At(Forward(q, Shift(p, d, t), input, l), i);
  }

  lemma SquashChain(q: Squash, f: real -> real, h: real -> real, f0: real, z: real, s: real, slope: real)
    requires Smooth(q) && Derivative(f, 0.0, z) && f(0.0) == f0 && s == q.slope(q.sigma(f0)) && slope == s * z
    requires forall t: real :: h(t) == q.sigma(f(t))
    ensures Derivative(h, 0.0, slope)
  {
    assert Derivative(q.sigma, f0, s);
    ChainRule(f, q.sigma, h, z, s, slope);
  }

  /** The neuron itself. */
  lemma SquashDerivative(q: Squash, p: Params, d: Params, input: seq<real>, layers: seq<nat>, l: nat, i: nat,
                         z: real, s: real, slope: real)
    requires 0 < l <= |p.weights| == |p.biases| == |d.weights| == |d.biases| == |layers| - 1 && Smooth(q)
    requires LayerShaped(p, layers, l - 1) && i < layers[l]
    requires Derivative(MovingInput(q, p, d, input, l - 1, i), 0.0, z)
    requires s == NeuronSlope(q, p, input, l, i) && slope == s * z
    ensures Derivative(Coord(Moving(q, p, d, input, l), i), 0.0, slope)
  {
    var f, h := MovingInput(q, p, d, input, l - 1, i), Coord(Moving(q, p, d, input, l), i);
    ShiftNothing(p, d);
    forall t: real
      ensures h(t) == q.sigma(f(t))
    {
      MovingAt(q, p, d, input, layers, l, i, t);
    }
    SquashChain(q, f, h, PreActivation(p, l - 1, Forward(q, p, input, l - 1), i), z, s, slope);
  }

  // ---------------------------------------------------------------- the loss along p + t * d

  lemma HalfSquare(f: real -> real, h: real -> real, df: real, slope: real)
    requires Derivative(f, 0.0, df) && slope == f(0.0) * df
    requires forall t: real :: h(t) == 0.5 * f(t) * f(t)
    ensures Derivative(h, 0.0, slope)
  {
    var half := (t: real) => 0.5;
    var k := (t: real) => half(t) * f(t);
    Affine(half, 0.5, 0.0);
    ProductRule(half, f, k, 0.0, df, 0.5 * df);
    ProductRule(k, f, h, 0.5 * df, df, slope);
  }

  function Miss(v: real -> seq<real>, expected: seq<real>, i: int): real -> real {
    t => Coord(v, i)(t) - At(expected, i)
  }

  lemma MissDerivative(v: real -> seq<real>, expected: seq<real>, i: int, slope: real)
    requires Derivative(Coord(v, i), 0.0, slope)
    ensures Derivative(Miss(v, expected, i), 0.0, slope)
  {
    var shift := (t: real) => -At(expected, i);
    Affine(shift, -At(expected, i), 0.0);
    SumRule(Coord(v, i), shift, Miss(v, expected, i), slope, 0.0, slope);
  }

  function LossOf(v: real -> seq<real>, expected: seq<real>, n: nat): real -> real {
    t => LossUpTo(v(t), expected, n)
  }

  function MovingLossTerm(v: real -> seq<real>, expected: seq<real>, i: int): real -> real {
    t => 0.5 * Miss(v, expected, i)(t) * Miss(v, expected, i)(t)
  }

  lemma LossStep(v: real -> seq<real>, expected: seq<real>, n: nat, t: real)
    ensures LossOf(v, expected, n + 1)(t) == LossOf(v, expected, n)(t) + MovingLossTerm(v, expected, n)(t)
  {
    assert LossOf(v, expected, n + 1)(t) == LossUpTo(v(t), expected, n + 1);
    assert LossOf(v, expected, n)(t) == LossUpTo(v(t), expected, n);
    assert Coord(v, n)(t) == At(v(t), n) && Miss(v, expected, n)(t) == Coord(v, n)(t) - At(expected, n);
    assert MovingLossTerm(v, expected, n)(t) == 0.5 * Miss(v, expected, n)(t) * Miss(v, expected, n)(t);
  }

  /** The derivative of one term of the loss. */
  function MissSlope(output: seq<real>, expected: seq<real>, ta: seq<real>, i: int): real {
    (At(output, i) - At(expected, i)) * At(ta, i)
  }

  lemma LossTangentStep(output: seq<real>, expected: seq<real>, ta: seq<real>, n: nat)
    requires n < |output|
    ensures LossTangentUpTo(output, expected, ta, n + 1)
         == LossTangentUpTo(output, expected, ta, n) + MissSlope(output, expected, ta, n)
  {
    assert At(Misses(output, expected), n) == At(output, n) - At(expected, n);
  }

  lemma TermOfLoss(v: real -> seq<real>, expected: seq<real>, ta: seq<real>, i: int)
    requires Derivative(Coord(v, i), 0.0, At(ta, i))
    ensures Derivative(MovingLossTerm(v, expected, i), 0.0, MissSlope(v(0.0), expected, ta, i))
  {
    MissDerivative(v, expected, i, At(ta, i));
    HalfSquare(Miss(v, expected, i), MovingLossTerm(v, expected, i), At(ta, i), MissSlope(v(0.0), expected, ta, i));
  }

  lemma AddLossTerm(v: real -> seq<real>, expected: seq<real>, ta: seq<real>, n: nat, p: real, slope: real)
    requires Derivative(LossOf(v, expected, n), 0.0, p)
    requires Derivative(MovingLossTerm(v, expected, n), 0.0, MissSlope(v(0.0), expected, ta, n))
    requires slope == p + MissSlope(v(0.0), expected, ta, n)
    ensures Derivative(LossOf(v, expected, n + 1), 0.0, slope)
  {
    forall t: real
      ensures LossOf(v, expected, n + 1)(t) == LossOf(v, expected, n)(t) + MovingLossTerm(v, expected, n)(t)
    {
      LossStep(v, expected, n, t);
    }
    SumRule(LossOf(v, expected, n), MovingLossTerm(v, expected, n), LossOf(v, expected, n + 1), p,
            MissSlope(v(0.0), expected, ta, n), slope);
  }

  lemma {:induction false} LossDerivative(v: real -> seq<real>, expected: seq<real>, ta: seq<real>, n: nat)
    requires n <= |v(0.0)| && forall c: nat :: c < n ==> Derivative(Coord(v, c), 0.0, At(ta, c))
    ensures Derivative(LossOf(v, expected, n), 0.0, LossTangentUpTo(v(0.0), expected, ta, n))
  {
    if n == 0 {
      forall t: real
        ensures LossOf(v, expected, 0)(t) == 0.0 + 0.0 * t
      {
        assert LossOf(v, expected, 0)(t) == LossUpTo(v(t), expected, 0);
      }
      Affine(LossOf(v, expected, 0), 0.0, 0.0);
    } else {
      var c := n - 1;
      LossDerivative(v, expected, ta, c);
      TermOfLoss(v, expected, ta, c);
      LossTangentStep(v(0.0), expected, ta, c);
      AddLossTerm(v, expected, ta, c, LossTangentUpTo(v(0.0), expected, ta, c),
                  LossTangentUpTo(v(0.0), expected, ta, n));
    }
  }

  /** sample_loss as a function of how far the parameters have moved along d */
  function LossAlong(q: Squash, p: Params, d: Params, input: seq<real>, expected: seq<real>): real -> real
    requires |p.weights| == |p.biases| == |d.weights| == |d.biases|
  {
    t => Loss(q, Shift(p, d, t), input, expected)
  }

  lemma LossAlongIsLossOf(q: Squash, p: Params, d: Params, input: seq<real>, expected: seq<real>, layers: seq<nat>,
                          top: nat, t: real)
    requires |p.weights| == |p.biases| == |d.weights| == |d.biases| == |layers| - 1 == top > 0
    requires LayerShaped(p, layers, top - 1)
    ensures LossAlong(q, p, d, input, expected)(t) == LossOf(Moving(q, p, d, input, top), expected, layers[top])(t)
  {
    var s := Shift(p, d, t);
    assert Moving(q, p, d, input, top)(t) == Forward(q, s, input, top) == Output(q, s, input);
    assert s.weights[top - 1].rows == layers[top];
  }

  lemma SameDerivative(f: real -> real, g: real -> real, slope: real)
    requires Derivative(f, 0.0, slope) && forall t: real :: g(t) == f(t)
    ensures Derivative(g, 0.0, slope)
  {
    var none := (t: real) => 0.0;
    Affine(none, 0.0, 0.0);
    SumRule(f, none, g, slope, 0.0, slope);
  }

  lemma LossAlongDerivative(q: Squash, p: Params, d: Params, input: seq<real>, expected: seq<real>, layers: seq<nat>,
                            top: nat)
    requires |p.weights| == |p.biases| == |d.weights| == |d.biases| == |layers| - 1 == top > 0
    requires LayerShaped(p, layers, top - 1) && AllTangential(q, p, d, input, top, layers[top])
    ensures Derivative(LossAlong(q, p, d, input, expected), 0.0, LossTangent(q, p, d, input, expected))
  {
    var v, ta := Moving(q, p, d, input, top), Tangent(q, p, d, input, top);
    forall c: nat | c < layers[top]
      ensures Derivative(Coord(v, c), 0.0, At(ta, c))
    {
      assert Tangential(q, p, d, input, top, c);
    }
    ShiftNothing(p, d);
    assert v(0.0) == Output(q, p, input) && |Output(q, p, input)| == layers[top];
    LossDerivative(v, expected, ta, layers[top]);
    forall t: real
      ensures LossAlong(q, p, d, input, expected)(t) == LossOf(v, expected, layers[top])(t)
    {
      LossAlongIsLossOf(q, p, d, input, expected, layers, top, t);
    }
    SameDerivative(LossOf(v, expected, layers[top]), LossAlong(q, p, d, input, expected),
                   LossTangentUpTo(v(0.0), expected, ta, layers[top]));
  }

  /** The gradient buffer holds the gradient of the loss: its inner product with any perturbation of the
      parameters is the derivative of the loss in that direction. */
  lemma GradientIsDerivative(q: Squash, p: Params, d: Params, input: seq<real>, expected: seq<real>, layers: seq<nat>)
    requires Shaped(p, layers) && Shaped(d, layers) && Smooth(q) && |input| == layers[0]
    ensures Derivative(LossAlong(q, p, d, input, expected), 0.0, Pairing(Gradient(q, p, input, expected), d))
  {
    var top := |layers| - 1;
    forall c: nat | c < layers[top]
      ensures Tangential(q, p, d, input, top, c)
    {
      ActivationDerivative(q, p, d, input, layers, top, c);
    }
    assert LayerShaped(p, layers, top - 1);
    LossAlongDerivative(q, p, d, input, expected, layers, top);
    BackPropagationIsAdjoint(q, p, d, input, expected, layers);
  }

  // ---------------------------------------------------------------- gradient descent

  ghost predicate Lower(f: real -> real, rate: real) {
    f(-rate) < f(0.0)
  }

  lemma Downhill(f: real -> real, slope: real) returns (delta: real)
    requires Derivative(f, 0.0, slope) && slope > 0.0
    ensures delta > 0.0 && forall rate: real :: 0.0 < rate < delta ==> Lower(f, rate)
  {
    delta := Radius(f, 0.0, slope, slope / 2.0);
    forall rate: real | 0.0 < rate < delta
      ensures Lower(f, rate)
    {
      assert Near(f, 0.0, slope, slope / 2.0, -rate) && 0.0 + -rate == -rate;
      LessByHalf(f(-rate), f(0.0), slope, rate);
    }
  }

  lemma LessByHalf(x: real, y: real, slope: real, rate: real)
    requires Abs(x - y - slope * -rate) <= slope / 2.0 * Abs(-rate) && slope > 0.0 && rate > 0.0
    ensures x < y
  {
    assert slope * -rate == -(slope * rate) && slope / 2.0 * rate == slope * rate / 2.0;
    assert slope * rate > 0.0;
  }

  ghost predicate LossFalls(q: Squash, before: Params, after: Params, input: seq<real>, expected: seq<real>)
    requires |before.weights| == |before.biases| && |after.weights| == |after.biases|
  {
    Loss(q, after, input, expected) < Loss(q, before, input, expected)
  }

  /** One step of plain gradient descent: what apply_gradients leaves without momentum. */
  ghost predicate Improves(q: Squash, p: Params, g: Params, input: seq<real>, expected: seq<real>, rate: real)
    requires |p.weights| == |p.biases| == |g.weights| == |g.biases|
  {
    LossFalls(q, p, Shift(p, g, -rate), input, expected)
  }

  lemma LowerImproves(q: Squash, p: Params, g: Params, input: seq<real>, expected: seq<real>, rate: real)
    requires |p.weights| == |p.biases| == |g.weights| == |g.biases|
    requires Lower(LossAlong(q, p, g, input, expected), rate)
    ensures Improves(q, p, g, input, expected, rate)
  {
    ShiftNothing(p, g);
    var f := LossAlong(q, p, g, input, expected);
    assert f(-rate) == Loss(q, Shift(p, g, -rate), input, expected) && f(0.0) == Loss(q, p, input, expected);
  }

  /** A step against the gradient lowers the loss of the sample, for every small enough learning rate. */
  lemma StepLowersLoss(q: Squash, p: Params, g: Params, input: seq<real>, expected: seq<real>, layers: seq<nat>)
    returns (delta: real)
    requires Shaped(p, layers) && Smooth(q) && |input| == layers[0]
    requires g == Gradient(q, p, input, expected) && Pairing(g, g) > 0.0
    ensures |g.weights| == |p.weights| && delta > 0.0
    ensures forall rate: real :: 0.0 < rate < delta ==> Improves(q, p, g, input, expected, rate)
  {
    GradientShaped(q, p, input, expected, layers);
    GradientIsDerivative(q, p, g, input, expected, layers);
    delta := Downhill(LossAlong(q, p, g, input, expected), Pairing(g, g));
    forall rate: real | 0.0 < rate < delta
      ensures Improves(q, p, g, input, expected, rate)
    {
      LowerImproves(q, p, g, input, expected, rate);
    }
  }

  lemma GradientShaped(q: Squash, p: Params, input: seq<real>, expected: seq<real>, layers: seq<nat>)
    requires Shaped(p, layers)
    ensures Shaped(Gradient(q, p, input, expected), layers)
  {
    var g := Gradient(q, p, input, expected);
    forall l: nat | l < |g.weights|
      ensures LayerShaped(g, layers, l)
    {
      assert LayerShaped(p, layers, l) && (l + 1 < |p.weights| ==> LayerShaped(p, layers, l + 1));
      DeltaSize(q, p, input, expected, layers, l);
      ProductsSize(Delta(q, p, input, expected, l), Forward(q, p, input, l), layers[l + 1], layers[l]);
    }
  }
}
