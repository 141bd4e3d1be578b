/** Back-propagation computes the gradient.

    First, as algebra: the inner product of the gradient with any perturbation of the parameters is the
    tangent of the loss that the chain rule gives, layer by layer, in the forward direction.  Then, as
    analysis: that tangent is the derivative of the loss along the perturbation, for every squashing
    function whose derivative is the one the code assumes. */
module NeuroGradient {
  import opened NeuroCalculus
  import opened NeuroNetwork
  import opened NeuroSums

  // ---------------------------------------------------------------- transposition

  function RowSumTerm(d: seq<real>, m: Matrix, v: seq<real>, cols: nat): int -> real {
    row => At(d, row) * RowDot(m, row, v, cols)
  }

  /** d . (m v) */
  function RowSum(d: seq<real>, m: Matrix, v: seq<real>, rows: nat, cols: nat): real {
    Sum(RowSumTerm(d, m, v, cols), rows)
  }

  function ColSumTerm(d: seq<real>, m: Matrix, v: seq<real>, rows: nat): int -> real {
    col => At(v, col) * ColDot(m, col, d, rows)
  }

  /** (transposed m d) . v */
  function ColSum(d: seq<real>, m: Matrix, v: seq<real>, rows: nat, cols: nat): real {
    Sum(ColSumTerm(d, m, v, rows), cols)
  }

  function Cells(d: seq<real>, m: Matrix, v: seq<real>): (int, int) -> real {
    (row, col) => At(d, row) * m.Get(row, col) * At(v, col)
  }

  lemma Associate(x: real, y: real, z: real)
    ensures x * y * z == x * (y * z) && x * y * z == z * (y * x)
  {
  }

  lemma RowOfCells(d: seq<real>, m: Matrix, v: seq<real>, row: int, cols: nat)
    ensures RowSumTerm(d, m, v, cols)(row) == RowSums(Cells(d, m, v), cols)(row)
  {
    forall c
      ensures Row(Cells(d, m, v), row)(c) == At(d, row) * RowTerm(m, row, v)(c)
    {
      Associate(At(d, row), m.Get(row, c), At(v, c));
    }
    SumScales(At(d, row), RowTerm(m, row, v), Row(Cells(d, m, v), row), cols);
  }

  lemma ColOfCells(d: seq<real>, m: Matrix, v: seq<real>, col: int, rows: nat)
    ensures ColSumTerm(d, m, v, rows)(col) == ColSums(Cells(d, m, v), rows)(col)
  {
    forall r
      ensures Col(Cells(d, m, v), col)(r) == At(v, col) * ColTerm(m, col, d)(r)
    {
      Associate(At(d, r), m.Get(r, col), At(v, col));
    }
    SumScales(At(v, col), ColTerm(m, col, d), Col(Cells(d, m, v), col), rows);
  }

  lemma RowSumIsCells(d: seq<real>, m: Matrix, v: seq<real>, rows: nat, cols: nat)
    ensures RowSum(d, m, v, rows, cols) == Sum(RowSums(Cells(d, m, v), cols), rows)
  {
    forall r
      ensures RowSumTerm(d, m, v, cols)(r) == RowSums(Cells(d, m, v), cols)(r)
    {
      RowOfCells(d, m, v, r, cols);
    }
    SumsAgree(RowSumTerm(d, m, v, cols), RowSums(Cells(d, m, v), cols), rows);
  }

  lemma ColSumIsCells(d: seq<real>, m: Matrix, v: seq<real>, rows: nat, cols: nat)
    ensures ColSum(d, m, v, rows, cols) == Sum(ColSums(Cells(d, m, v), rows), cols)
  {
    forall c
      ensures ColSumTerm(d, m, v, rows)(c) == ColSums(Cells(d, m, v), rows)(c)
    {
      ColOfCells(d, m, v, c, rows);
    }
    SumsAgree(ColSumTerm(d, m, v, rows), ColSums(Cells(d, m, v), rows), cols);
  }

  /** d . (m v) == (transposed m d) . v */
  lemma Transpose(d: seq<real>, m: Matrix, v: seq<real>, rows: nat, cols: nat)
    ensures RowSum(d, m, v, rows, cols) == ColSum(d, m, v, rows, cols)
  {
    RowSumIsCells(d, m, v, rows, cols);
    ColSumIsCells(d, m, v, rows, cols);
    Exchange(Cells(d, m, v), rows, cols);
  }

  // ---------------------------------------------------------------- the forward tangent

  /** The change of the weighted input of neuron `row`, given those of the layer before it. */
  function PreTangent(p: Params, d: Params, l: nat, a: seq<real>, ta: seq<real>, row: int): real
    requires l < |p.weights| == |p.biases| == |d.weights| == |d.biases|
  {
    At(d.biases[l], row) + RowDot(d.weights[l], row, a, p.weights[l].cols) + RowDot(p.weights[l], row, ta,
      p.weights[l].cols)
  }

  function PreTangents(p: Params, d: Params, l: nat, a: seq<real>, ta: seq<real>): seq<real>
    requires l < |p.weights| == |p.biases| == |d.weights| == |d.biases|
  {
    seq(p.weights[l].rows, row => PreTangent(p, d, l, a, ta, row))
  }

  /** The change of the activations of layer l per unit of the perturbation d. */
  function Tangent(q: Squash, p: Params, d: Params, input: seq<real>, l: nat): seq<real>
    requires l <= |p.weights| == |p.biases| == |d.weights| == |d.biases|
    decreases l, 0
  {
    if l == 0 then seq(|input|, i => 0.0)
    else Hadamard(Slopes(q, Forward(q, p, input, l)), InputTangent(q, p, d, input, l - 1))
  }

  /** The change of the weighted inputs of the neurons fed by matrix l. */
  function InputTangent(q: Squash, p: Params, d: Params, input: seq<real>, l: nat): seq<real>
    requires l < |p.weights| == |p.biases| == |d.weights| == |d.biases|
    decreases l, 1
  {
    PreTangents(p, d, l, Forward(q, p, input, l), Tangent(q, p, d, input, l))
  }

  function LossTangentUpTo(output: seq<real>, expected: seq<real>, ta: seq<real>, n: nat): real {
    Dot(Misses(output, expected), ta, n)
  }

  function LossTangent(q: Squash, p: Params, d: Params, input: seq<real>, expected: seq<real>): real
    requires |p.weights| == |p.biases| == |d.weights| == |d.biases|
  {
    var output := Output(q, p, input);
    LossTangentUpTo(output, expected, Tangent(q, p, d, input, |p.weights|), |output|)
  }

  // ---------------------------------------------------------------- back-propagation is its adjoint

  lemma Distribute(k: real, x: real, y: real, z: real)
    ensures k * (x + y + z) == k * x + k * y + k * z
  {
  }

  lemma DotSplits(e: seq<real>, z: seq<real>, b: seq<real>, m: Matrix, v: seq<real>, m': Matrix, v': seq<real>,
                  n: nat, cols: nat)
    requires forall r :: 0 <= r < n ==> At(z, r) == At(b, r) + RowDot(m, r, v, cols) + RowDot(m', r, v', cols)
    ensures Dot(e, z, n) == Dot(e, b, n) + RowSum(e, m, v, n, cols) + RowSum(e, m', v', n, cols)
  {
    var rows, rows' := RowSumTerm(e, m, v, cols), RowSumTerm(e, m', v', cols);
    var both := (r: int) => DotTerm(e, b)(r) + rows(r);
    SumAdds(DotTerm(e, b), rows, both, n);
    forall r | 0 <= r < n
      ensures DotTerm(e, z)(r) == both(r) + rows'(r)
    {
      Distribute(At(e, r), At(b, r), RowDot(m, r, v, cols), RowDot(m', r, v', cols));
    }
    SumAdds(both, rows', DotTerm(e, z), n);
  }

  lemma SwapFactors(x: real, y: real, z: real)
    ensures x * y * z == x * z * y
  {
  }

  lemma FlatCell(e: seq<real>, a: seq<real>, m: Matrix, row: nat, col: nat, rows: nat, products: seq<real>)
    requires row < rows && col < m.cols && products == Products(e, a, rows, m.cols)
    ensures DotTerm(products, m.data)(Index(row, col, m.cols)) == Cells(e, m, a)(row, col)
  {
    ProductsGet(e, a, rows, m.cols, row, col);
    SwapFactors(At(e, row), At(a, col), m.Get(row, col));
  }

  lemma NextRow(row: nat, cols: nat)
    ensures (row + 1) * cols == row * cols + cols && row * cols >= 0
  {
  }

  /** The flat inner product of the weight gradients with a perturbation, row by row. */
  lemma Flat(e: seq<real>, a: seq<real>, m: Matrix, rows: nat, size: nat, products: seq<real>)
    requires products == Products(e, a, rows, m.cols) && size == Index(rows, 0, m.cols)
    ensures Dot(products, m.data, size) == RowSum(e, m, a, rows, m.cols)
  {
    forall r, c | 0 <= r < rows && 0 <= c < m.cols
      ensures DotTerm(products, m.data)(Index(r, c, m.cols)) == Cells(e, m, a)(r, c)
    {
      FlatCell(e, a, m, r, c, rows, products);
    }
    SumByRows(DotTerm(products, m.data), Cells(e, m, a), rows, m.cols, size);
    RowSumIsCells(e, m, a, rows, m.cols);
  }

  lemma NoTangent(e: seq<real>, m: Matrix, v: seq<real>, rows: nat, cols: nat)
    requires forall i :: 0 <= i < |v| ==> v[i] == 0.0
    ensures RowSum(e, m, v, rows, cols) == 0.0
  {
    forall r | 0 <= r < rows
      ensures RowSumTerm(e, m, v, cols)(r) == 0.0
    {
      SumVanishes(RowTerm(m, r, v), cols);
    }
    SumVanishes(RowSumTerm(e, m, v, cols), rows);
  }

  lemma Shuffle(slope: real, z: real, back: real)
    ensures (slope * z) * back == (back * slope) * z
  {
  }

  /** Pairing slopes times z with what `m` carries back is pairing z with that times the slopes. */
  lemma Descend(e: seq<real>, m: Matrix, z: seq<real>, slopes: seq<real>, n: nat)
    requires n <= m.cols == |slopes|
    ensures ColSum(e, m, Hadamard(slopes, z), m.rows, n) == Dot(Hadamard(Back(m, e), slopes), z, n)
  {
    forall i | 0 <= i < n
      ensures ColSumTerm(e, m, Hadamard(slopes, z), m.rows)(i) == DotTerm(Hadamard(Back(m, e), slopes), z)(i)
    {
      Shuffle(At(slopes, i), At(z, i), ColDot(m, i, e, m.rows));
    }
    SumsAgree(ColSumTerm(e, m, Hadamard(slopes, z), m.rows), DotTerm(Hadamard(Back(m, e), slopes), z), n);
  }

  lemma TopLayer(misses: seq<real>, z: seq<real>, slopes: seq<real>, n: nat)
    requires n <= |misses| == |slopes|
    ensures Dot(misses, Hadamard(slopes, z), n) == Dot(Hadamard(misses, slopes), z, n)
  {
    forall i | 0 <= i < n
      ensures DotTerm(misses, Hadamard(slopes, z))(i) == DotTerm(Hadamard(misses, slopes), z)(i)
    {
      Shuffle(At(slopes, i), At(z, i), At(misses, i));
    }
    SumsAgree(DotTerm(misses, Hadamard(slopes, z)), DotTerm(Hadamard(misses, slopes), z), n);
  }

  /** Matrix l and its biases, seen from error terms e. */
  lemma LayerSplits(p: Params, d: Params, e: seq<real>, a: seq<real>, ta: seq<real>, layers: seq<nat>, l: nat)
    requires l < |p.weights| == |p.biases| == |d.weights| == |d.biases| == |layers| - 1
    requires LayerShaped(p, layers, l)
    ensures Dot(e, PreTangents(p, d, l, a, ta), layers[l + 1])
         == LayerShare(e, a, d, layers, l) + RowSum(e, p.weights[l], ta, layers[l + 1], layers[l])
  {
    DotSplits(e, PreTangents(p, d, l, a, ta), d.biases[l], d.weights[l], a, p.weights[l], ta, layers[l + 1], layers[l]);
  }

  /** What layer l contributes to the pairing of the gradient with d, from its error terms e and its inputs a. */
  function LayerShare(e: seq<real>, a: seq<real>, d: Params, layers: seq<nat>, l: nat): real
    requires l < |d.weights| == |d.biases| == |layers| - 1
  {
    RowSum(e, d.weights[l], a, layers[l + 1], layers[l]) + Dot(e, d.biases[l], layers[l + 1])
  }

  /** The contribution of layer l; the error terms of layer l paired with its tangents; and what those error
      terms see of the tangents of the layer below. */
  datatype Flow = Flow(own: real, paired: real, carried: real)

  function FlowAt(q: Squash, p: Params, d: Params, input: seq<real>, expected: seq<real>, layers: seq<nat>,
    l: nat): Flow
    requires l < |p.weights| == |p.biases| == |d.weights| == |d.biases| == |layers| - 1
  {
    var e := Delta(q, p, input, expected, l);
    Flow(LayerShare(e, Forward(q, p, input, l), d, layers, l),
         Dot(e, InputTangent(q, p, d, input, l), layers[l + 1]),
         RowSum(e, p.weights[l], Tangent(q, p, d, input, l), layers[l + 1], layers[l]))
  }

  lemma FlowSplits(q: Squash, p: Params, d: Params, input: seq<real>, expected: seq<real>, layers: seq<nat>, l: nat)
    requires l < |p.weights| == |p.biases| == |d.weights| == |d.biases| == |layers| - 1
    requires LayerShaped(p, layers, l)
    ensures var f := FlowAt(q, p, d, input, expected, layers, l); f.paired == f.own + f.carried
  {
    LayerSplits(p, d, Delta(q, p, input, expected, l), Forward(q, p, input, l), Tangent(q, p, d, input, l), layers, l);
  }

  lemma NothingAboveInput(q: Squash, p: Params, d: Params, input: seq<real>, expected: seq<real>, layers: seq<nat>)
    requires 0 < |p.weights| == |p.biases| == |d.weights| == |d.biases| == |layers| - 1
    ensures FlowAt(q, p, d, input, expected, layers, 0).carried == 0.0
  {
    NoTangent(Delta(q, p, input, expected, 0), p.weights[0], Tangent(q, p, d, input, 0), layers[1], layers[0]);
  }

  lemma CarriedIsPaired(q: Squash, p: Params, d: Params, input: seq<real>, expected: seq<real>, layers: seq<nat>,
    l: nat,
                        f: Flow, g: Flow)
    requires 0 < l < |p.weights| == |p.biases| == |d.weights| == |d.biases| == |layers| - 1
    requires LayerShaped(p, layers, l) && LayerShaped(p, layers, l - 1)
    requires f == FlowAt(q, p, d, input, expected, layers, l - 1) && g == FlowAt(q, p, d, input, expected, layers, l)
    ensures g.carried == f.paired
  {
    var e, z := Delta(q, p, input, expected, l), InputTangent(q, p, d, input, l - 1);
    var slopes := Slopes(q, Forward(q, p, input, l));
    Transpose(e, p.weights[l], Hadamard(slopes, z), layers[l + 1], layers[l]);
    Descend(e, p.weights[l], z, slopes, layers[l]);
  }

  /** Contributions add up to what the last layer's error terms see, if each layer passes the rest down. */
  lemma {:induction false} Telescope(own: int -> real, flows: seq<Flow>, n: nat)
    requires 0 < n <= |flows| && flows[0].carried == 0.0
    requires forall l :: 0 <= l < |flows| ==>
      own(l) == flows[l].own && flows[l].paired == flows[l].own + flows[l].carried
    requires forall l, k :: 0 <= k < l < |flows| && l == k + 1 ==> flows[l].carried == flows[k].paired
    ensures Sum(own, n) == flows[n - 1].paired
  {
    if n > 1 {
      Telescope(own, flows, n - 1);
    }
  }

  lemma DeltaSize(q: Squash, p: Params, input: seq<real>, expected: seq<real>, layers: seq<nat>, l: nat)
    requires l < |p.weights| == |p.biases| == |layers| - 1
    requires LayerShaped(p, layers, l) && (l + 1 < |p.weights| ==> LayerShaped(p, layers, l + 1))
    ensures |Delta(q, p, input, expected, l)| == layers[l + 1]
  {
  }

  lemma LayerPairingIsShare(q: Squash, p: Params, d: Params, input: seq<real>, expected: seq<real>,
                            layers: seq<nat>, l: nat)
    requires l < |p.weights| == |p.biases| == |d.weights| == |d.biases| == |layers| - 1
    requires LayerShaped(p, layers, l) && LayerShaped(d, layers, l)
    requires l + 1 < |p.weights| ==> LayerShaped(p, layers, l + 1)
    ensures PairingTerm(Gradient(q, p, input, expected), d)(l) == FlowAt(q, p, d, input, expected, layers, l).own
  {
    var e, a := Delta(q, p, input, expected, l), Forward(q, p, input, l);
    var g := Gradient(q, p, input, expected);
    assert g.weights[l].data == Products(e, a, layers[l + 1], layers[l]) && g.biases[l] == e;
    ProductsSize(e, a, layers[l + 1], layers[l]);
    DeltaSize(q, p, input, expected, layers, l);
    Flat(e, a, d.weights[l], layers[l + 1], |g.weights[l].data|, g.weights[l].data);
    assert PairingTerm(g, d)(l) == LayerPairing(g, d, l);
  }

  lemma TopIsLossTangent(q: Squash, p: Params, d: Params, input: seq<real>, expected: seq<real>, layers: seq<nat>,
                         top: nat, f: Flow)
    requires |p.weights| == |p.biases| == |d.weights| == |d.biases| == |layers| - 1 == top + 1
    requires LayerShaped(p, layers, top) && f == FlowAt(q, p, d, input, expected, layers, top)
    ensures LossTangent(q, p, d, input, expected) == f.paired
  {
    var output, z := Output(q, p, input), InputTangent(q, p, d, input, top);
    TopLayer(Misses(output, expected), z, Slopes(q, output), layers[top + 1]);
  }

  ghost predicate AreFlows(q: Squash, p: Params, d: Params, input: seq<real>, expected: seq<real>, layers: seq<nat>,
                           flows: seq<Flow>)
    requires |p.weights| == |p.biases| == |d.weights| == |d.biases| == |layers| - 1
  {
    |flows| == |p.weights| && forall l :: 0 <= l < |flows| ==> flows[l] == FlowAt(q, p, d, input, expected, layers, l)
  }

  lemma FlowsAddUp(q: Squash, p: Params, d: Params, input: seq<real>, expected: seq<real>, layers: seq<nat>,
                   flows: seq<Flow>, own: int -> real)
    requires Shaped(p, layers) && Shaped(d, layers) && AreFlows(q, p, d, input, expected, layers, flows)
    requires own == PairingTerm(Gradient(q, p, input, expected), d)
    ensures forall l :: 0 <= l < |flows| ==>
      own(l) == flows[l].own && flows[l].paired == flows[l].own + flows[l].carried
  {
    forall l: nat | l < |flows|
      ensures own(l) == flows[l].own && flows[l].paired == flows[l].own + flows[l].carried
    {
      assert LayerShaped(p, layers, l) && LayerShaped(d, layers, l);
      assert l + 1 < |p.weights| ==> LayerShaped(p, layers, l + 1);
      FlowSplits(q, p, d, input, expected, layers, l);
      LayerPairingIsShare(q, p, d, input, expected, layers, l);
    }
  }

  lemma FlowDescends(q: Squash, p: Params, d: Params, input: seq<real>, expected: seq<real>, layers: seq<nat>,
                     flows: seq<Flow>, l: nat, k: nat)
    requires Shaped(p, layers) && Shaped(d, layers) && AreFlows(q, p, d, input, expected, layers, flows)
    requires l == k + 1 < |flows|
    ensures flows[l].carried == flows[k].paired
  {
    assert LayerShaped(p, layers, l) && LayerShaped(p, layers, k);
    CarriedIsPaired(q, p, d, input, expected, layers, l, flows[k], flows[l]);
  }

  lemma FlowsDescend(q: Squash, p: Params, d: Params, input: seq<real>, expected: seq<real>, layers: seq<nat>,
                     flows: seq<Flow>)
    requires Shaped(p, layers) && Shaped(d, layers) && AreFlows(q, p, d, input, expected, layers, flows)
    ensures forall l, k :: 0 <= k < l < |flows| && l == k + 1 ==> flows[l].carried == flows[k].paired
  {
    forall l, k | 0 <= k < l < |flows| && l == k + 1
      ensures flows[l].carried == flows[k].paired
    {
      FlowDescends(q, p, d, input, expected, layers, flows, l, k);
    }
  }

  lemma FlowsStart(q: Squash, p: Params, d: Params, input: seq<real>, expected: seq<real>, layers: seq<nat>,
                   flows: seq<Flow>)
    requires Shaped(p, layers) && Shaped(d, layers) && AreFlows(q, p, d, input, expected, layers, flows)
    ensures flows[0].carried == 0.0
  {
    NothingAboveInput(q, p, d, input, expected, layers);
  }

  /** The gradient buffer paired with any perturbation is the tangent of the loss along it. */
  lemma BackPropagationIsAdjoint(q: Squash, p: Params, d: Params, input: seq<real>, expected: seq<real>,
    layers: seq<nat>)
    requires Shaped(p, layers) && Shaped(d, layers)
    ensures Pairing(Gradient(q, p, input, expected), d) == LossTangent(q, p, d, input, expected)
  {
    var own := PairingTerm(Gradient(q, p, input, expected), d);
    var flows := seq(|p.weights|, l requires 0 <= l < |p.weights| => FlowAt(q, p, d, input, expected, layers, l));
    FlowsAddUp(q, p, d, input, expected, layers, flows, own);
    FlowsStart(q, p, d, input, expected, layers, flows);
    FlowsDescend(q, p, d, input, expected, layers, flows);
    Telescope(own, flows, |flows|);
    assert LayerShaped(p, layers, |flows| - 1);
    TopIsLossTangent(q, p, d, input, expected, layers, |flows| - 1, flows[|flows| - 1]);
  }
}
