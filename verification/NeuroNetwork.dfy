/** The fully connected network of vneuro.h over the reals: what forward, compute_gradients and
    sample_loss compute, as functions of the parameters. */
module NeuroNetwork {
  import opened NeuroSums

  function At(v: seq<real>, i: int): real {
    if 0 <= i < |v| then v[i] else 0.0
  }

  /** Row-major, as the source stores it. */
  datatype Matrix = Matrix(rows: nat, cols: nat, data: seq<real>) {
    predicate Valid() {
      |data| == rows * cols
    }

    function Get(row: int, col: int): real {
      At(data, row * cols + col)
    }
  }

  lemma {:induction false} RowFits(row: nat, rows: nat, cols: nat)
    requires row < rows
    ensures row * cols + cols <= rows * cols
  {
    if row < rows - 1 {
      RowFits(row, rows - 1, cols);
      assert rows * cols == (rows - 1) * cols + cols;
    } else {
      assert rows * cols == row * cols + cols;
    }
  }

  lemma IndexInRange(row: nat, col: nat, rows: nat, cols: nat)
    requires row < rows && col < cols
    ensures 0 <= row * cols + col < rows * cols
  {
    RowFits(row, rows, cols);
    NotNegative(row, cols);
  }

  lemma NotNegative(a: nat, b: nat)
    ensures 0 <= a * b
  {
  }

  function RowTerm(m: Matrix, row: int, v: seq<real>): int -> real {
    col => m.Get(row, col) * At(v, col)
  }

  /** sum over col < n of m(row, col) * v[col] */
  function RowDot(m: Matrix, row: int, v: seq<real>, n: nat): real {
    Sum(RowTerm(m, row, v), n)
  }

  function ColTerm(m: Matrix, col: int, d: seq<real>): int -> real {
    row => m.Get(row, col) * At(d, row)
  }

  /** sum over row < n of m(row, col) * d[row] */
  function ColDot(m: Matrix, col: int, d: seq<real>, n: nat): real {
    Sum(ColTerm(m, col, d), n)
  }

  function DotTerm(u: seq<real>, v: seq<real>): int -> real {
    i => At(u, i) * At(v, i)
  }

  function Dot(u: seq<real>, v: seq<real>, n: nat): real {
    Sum(DotTerm(u, v), n)
  }

  /** A parameter set: the network's weights and biases, a gradient, a velocity or a perturbation. */
  datatype Params = Params(weights: seq<Matrix>, biases: seq<seq<real>>)

  predicate LayerShaped(p: Params, layers: seq<nat>, l: nat)
    requires l < |p.weights| == |p.biases| == |layers| - 1
  {
    && p.weights[l].Valid() && p.weights[l].rows == layers[l + 1] && p.weights[l].cols == layers[l]
    && |p.biases[l]| == layers[l + 1]
  }

  /** One matrix and one bias vector between each two neighbouring layers. */
  ghost predicate Shaped(p: Params, layers: seq<nat>) {
    && |p.weights| == |p.biases| == |layers| - 1 >= 1
    && forall l: nat :: l < |p.weights| ==> LayerShaped(p, layers, l)
  }

  /** The squashing function, left abstract, and the slope that the code derives from its output. */
  datatype Squash = Squash(sigma: real -> real, slope: real -> real)

  /** sigmoid_derivative_from_output for steepness beta */
  function SlopeFor(beta: real): real -> real {
    output => beta * output * (1.0 - output)
  }

  function PreActivation(p: Params, l: nat, a: seq<real>, row: int): real
    requires l < |p.weights| == |p.biases|
  {
    At(p.biases[l], row) + RowDot(p.weights[l], row, a, p.weights[l].cols)
  }

  /** The activations of layer l. */
  function Forward(q: Squash, p: Params, input: seq<real>, l: nat): (a: seq<real>)
    requires l <= |p.weights| == |p.biases|
    ensures |a| == if l == 0 then |input| else p.weights[l - 1].rows
  {
    if l == 0 then input
    else
      var a := Forward(q, p, input, l - 1);
      seq(p.weights[l - 1].rows, row => q.sigma(PreActivation(p, l - 1, a, row)))
  }

  function Output(q: Squash, p: Params, input: seq<real>): seq<real>
    requires |p.weights| == |p.biases|
  {
    Forward(q, p, input, |p.weights|)
  }

  function LossTerm(output: seq<real>, expected: seq<real>): int -> real {
    i => var difference := At(output, i) - At(expected, i); 0.5 * difference * difference
  }

  function LossUpTo(output: seq<real>, expected: seq<real>, n: nat): real {
    Sum(LossTerm(output, expected), n)
  }

  /** sample_loss */
  function Loss(q: Squash, p: Params, input: seq<real>, expected: seq<real>): real
    requires |p.weights| == |p.biases|
  {
    var output := Output(q, p, input);
    LossUpTo(output, expected, |output|)
  }

  function Hadamard(u: seq<real>, v: seq<real>): seq<real> {
    seq(|u|, i => At(u, i) * At(v, i))
  }

  function Slopes(q: Squash, a: seq<real>): seq<real> {
    seq(|a|, i => q.slope(At(a, i)))
  }

  function Misses(output: seq<real>, expected: seq<real>): seq<real> {
    seq(|output|, i => At(output, i) - At(expected, i))
  }

  /** What the matrix carries back: its transpose times e. */
  function Back(m: Matrix, e: seq<real>): seq<real> {
    seq(m.cols, i => ColDot(m, i, e, m.rows))
  }

  /** The error terms of the neurons fed by matrix l, from the output layer backwards. */
  function Delta(q: Squash, p: Params, input: seq<real>, expected: seq<real>, l: nat): seq<real>
    requires l < |p.weights| == |p.biases|
    decreases |p.weights| - l
  {
    var a := Forward(q, p, input, l + 1);
    if l == |p.weights| - 1 then Hadamard(Misses(a, expected), Slopes(q, a))
    else Hadamard(Back(p.weights[l + 1], Delta(q, p, input, expected, l + 1)), Slopes(q, a))
  }

  /** d[row] * a[col], row by row */
  function Products(d: seq<real>, a: seq<real>, rows: nat, cols: nat): seq<real> {
    if rows == 0 then []
    else Products(d, a, rows - 1, cols) + seq(cols, col => At(d, rows - 1) * At(a, col))
  }

  /** What compute_gradients leaves in the gradient buffer for matrix l. */
  function WeightGradient(q: Squash, p: Params, input: seq<real>, expected: seq<real>, l: int): Matrix
    requires |p.weights| == |p.biases|
  {
    if 0 <= l < |p.weights| then
      Matrix(p.weights[l].rows, p.weights[l].cols,
             Products(Delta(q, p, input, expected, l), Forward(q, p, input, l), p.weights[l].rows, p.weights[l].cols))
    else Matrix(0, 0, [])
  }

  function BiasGradient(q: Squash, p: Params, input: seq<real>, expected: seq<real>, l: int): seq<real>
    requires |p.weights| == |p.biases|
  {
    if 0 <= l < |p.weights| then Delta(q, p, input, expected, l) else []
  }

  function Gradient(q: Squash, p: Params, input: seq<real>, expected: seq<real>): Params
    requires |p.weights| == |p.biases|
  {
    Params(seq(|p.weights|, l => WeightGradient(q, p, input, expected, l)),
           seq(|p.weights|, l => BiasGradient(q, p, input, expected, l)))
  }

  function LayerPairing(g: Params, d: Params, l: nat): real
    requires l < |g.weights| == |g.biases| && l < |d.weights| == |d.biases|
  {
    Dot(g.weights[l].data, d.weights[l].data, |g.weights[l].data|) + Dot(g.biases[l], d.biases[l], |g.biases[l]|)
  }

  function PairingTerm(g: Params, d: Params): int -> real
    requires |g.weights| == |g.biases| == |d.weights| == |d.biases|
  {
    l => if 0 <= l < |g.weights| then LayerPairing(g, d, l) else 0.0
  }

  /** The inner product of two parameter sets of the same shape. */
  function Pairing(g: Params, d: Params): real
    requires |g.weights| == |g.biases| == |d.weights| == |d.biases|
  {
    Sum(PairingTerm(g, d), |g.weights|)
  }

  /** p + t * d */
  function Shift(p: Params, d: Params, t: real): Params
    requires |p.weights| == |p.biases| == |d.weights| == |d.biases|
  {
    Params(seq(|p.weights|, l requires 0 <= l < |p.weights| =>
                 Matrix(p.weights[l].rows, p.weights[l].cols, Add(p.weights[l].data, d.weights[l].data, t))),
           seq(|p.weights|, l requires 0 <= l < |p.weights| => Add(p.biases[l], d.biases[l], t)))
  }

  function Add(v: seq<real>, d: seq<real>, t: real): seq<real> {
    seq(|v|, k => At(v, k) + t * At(d, k))
  }

  lemma {:induction false} ProductsSize(d: seq<real>, a: seq<real>, rows: nat, cols: nat)
    ensures |Products(d, a, rows, cols)| == rows * cols
  {
    if rows > 0 {
      ProductsSize(d, a, rows - 1, cols);
    }
  }

  lemma {:induction false} ProductsGet(d: seq<real>, a: seq<real>, rows: nat, cols: nat, row: nat, col: nat)
    requires row < rows && col < cols
    ensures At(Products(d, a, rows, cols), row * cols + col) == At(d, row) * At(a, col)
  {
    IndexInRange(row, col, rows, cols);
    ProductsSize(d, a, rows - 1, cols);
    if row < rows - 1 {
      IndexInRange(row, col, rows - 1, cols);
      ProductsGet(d, a, rows - 1, cols, row, col);
    }
  }

  lemma ShiftGet(p: Params, d: Params, t: real, l: nat, row: nat, col: nat)
    requires l < |p.weights| == |p.biases| == |d.weights| == |d.biases|
    requires p.weights[l].Valid() && d.weights[l].Valid() && d.weights[l].cols == p.weights[l].cols
    requires row < p.weights[l].rows && col < p.weights[l].cols
    ensures Shift(p, d, t).weights[l].Get(row, col) == p.weights[l].Get(row, col) + t * d.weights[l].Get(row, col)
  {
    IndexInRange(row, col, p.weights[l].rows, p.weights[l].cols);
  }
}
