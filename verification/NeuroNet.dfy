/** The class of vneuro.h: its buffers, its loops and what they leave behind.

    The exponential stays abstract (NeuroSigmoid.IsExponential), real numbers stand for doubles, and the shuffle is any
    sequence of swaps. */
module NeuroNet {
  import opened NeuroCalculus
  import opened NeuroNetwork
  import opened NeuroGradient
  import opened NeuroDerivative
  import opened NeuroSigmoid
  import opened NeuroTraining

  datatype Problem =
    | TooFewLayers | LayerNotPositive | BadLearningRate | BadMomentum | BadSteepness
    | InputSizeMismatch | ExpectedSizeMismatch | BadEpsilon | NegativeIterations | StepNotPositive | BadTarget
    | TargetNotReached

  datatype Result<+T> = Success(value: T) | Failure(problem: Problem)

  /** validate_configuration, in the order of its checks */
  function CheckConfiguration(layers: seq<nat>, rate: real, momentum: real, beta: real): (r: Result<()>)
    ensures r.Success? <==>
      && |layers| >= 2 && (forall l :: 0 <= l < |layers| ==> layers[l] > 0)
      && rate > 0.0 && 0.0 <= momentum < 1.0 && beta > 0.0
  {
    if |layers| < 2 then Failure(TooFewLayers)
    else if 0 in layers then Failure(LayerNotPositive)
    else if rate <= 0.0 then Failure(BadLearningRate)
    else if momentum < 0.0 || momentum >= 1.0 then Failure(BadMomentum)
    else if beta <= 0.0 then Failure(BadSteepness)
    else Success(())
  }

  /** convert_layers: layer sizes given as ints */
  method ConvertLayers(layers: seq<int>) returns (r: Result<seq<nat>>)
    ensures r.Success? <==> forall l :: 0 <= l < |layers| ==> layers[l] > 0
    ensures r.Success? ==> r.value == layers
    ensures r.Failure? ==> r.problem == LayerNotPositive
  {
    var converted: seq<nat> := [];
    for l := 0 to |layers|
      invariant converted == layers[..l]
      invariant forall k :: 0 <= k < l ==> layers[k] > 0
    {
      if layers[l] <= 0 {
        return Failure(LayerNotPositive);
      }
      converted := converted + [layers[l]];
    }
    return Success(converted);
  }

  /** The innermost loop of forward and forward_training. */
  method WeightedInput(m: Matrix, b: seq<real>, a: seq<real>, row: nat) returns (sum: real)
    requires m.Valid() && row < m.rows == |b| && |a| == m.cols
    ensures sum == At(b, row) + RowDot(m, row, a, m.cols)
  {
    sum := b[row];
    for col := 0 to m.cols
      invariant sum == At(b, row) + RowDot(m, row, a, col)
    {
      IndexInRange(row, col, m.rows, m.cols);
      sum := sum + m.data[row * m.cols + col] * a[col];
    }
  }

  /** The innermost loop of the backward pass. */
  method PropagatedError(m: Matrix, e: seq<real>, index: nat) returns (propagated: real)
    requires m.Valid() && index < m.cols && |e| == m.rows
    ensures propagated == ColDot(m, index, e, m.rows)
  {
    propagated := 0.0;
    for next := 0 to m.rows
      invariant propagated == ColDot(m, index, e, next)
    {
      IndexInRange(next, index, m.rows, m.cols);
      propagated := propagated + m.data[next * m.cols + index] * e[next];
    }
  }

  lemma NextActivation(q: Squash, p: Params, input: seq<real>, l: nat, row: nat)
    requires l < |p.weights| == |p.biases| && row < p.weights[l].rows
    ensures |Forward(q, p, input, l + 1)| == p.weights[l].rows
    ensures Forward(q, p, input, l + 1)[row] == q.sigma(PreActivation(p, l, Forward(q, p, input, l), row))
  {
  }

  /** The first n buffers hold the activations of the first n layers. */
  ghost predicate Activated(q: Squash, p: Params, input: seq<real>, buffers: seq<seq<real>>, n: nat)
    requires n <= |buffers| == |p.weights| + 1 && |p.weights| == |p.biases|
  {
    forall l: nat :: l < n ==> buffers[l] == Forward(q, p, input, l)
  }

  lemma ActivationSize(q: Squash, p: Params, input: seq<real>, layers: seq<nat>, l: nat)
    requires Shaped(p, layers) && |input| == layers[0] && l < |layers|
    ensures |Forward(q, p, input, l)| == layers[l]
  {
    if l > 0 {
      assert LayerShaped(p, layers, l - 1);
    }
  }

  /** forward: the activations of every layer, in fresh vectors */
  method ForwardPass(q: Squash, p: Params, input: seq<real>, layers: seq<nat>) returns (activations: seq<seq<real>>)
    requires Shaped(p, layers) && |input| == layers[0]
    ensures |activations| == |layers| && Activated(q, p, input, activations, |layers|)
  {
    activations := [input];
    for l := 0 to |p.weights|
      invariant |activations| == l + 1
      invariant forall k: nat :: k <= l ==> activations[k] == Forward(q, p, input, k)
    {
      assert LayerShaped(p, layers, l);
      ActivationSize(q, p, input, layers, l);
      var rows := p.weights[l].rows;
      var output := seq(rows, _ => 0.0);
      for row := 0 to rows
        invariant |output| == rows == |Forward(q, p, input, l + 1)|
        invariant output[..row] == Forward(q, p, input, l + 1)[..row]
      {
        var sum := WeightedInput(p.weights[l], p.biases[l], activations[l], row);
        NextActivation(q, p, input, l, row);
        output := output[row := q.sigma(sum)];
      }
      activations := activations + [output];
    }
  }

  /** sample_loss */
  method SampleLoss(q: Squash, p: Params, input: seq<real>, expected: seq<real>, layers: seq<nat>) returns (loss: real)
    requires Shaped(p, layers) && |input| == layers[0] && |expected| == layers[|layers| - 1]
    ensures loss == Loss(q, p, input, expected)
  {
    var activations := ForwardPass(q, p, input, layers);
    var output := activations[|activations| - 1];
    ActivationSize(q, p, input, layers, |layers| - 1);
    loss := 0.0;
    for index := 0 to |output|
      invariant loss == LossUpTo(output, expected, index)
    {
      var difference := output[index] - expected[index];
      loss := loss + 0.5 * difference * difference;
    }
  }

  // ---------------------------------------------------------------- error terms

  /** The errors of the output layer, from its activations. */
  function TopErrors(q: Squash, a: seq<real>, expected: seq<real>): seq<real> {
    Hadamard(Misses(a, expected), Slopes(q, a))
  }

  /** The errors of a hidden layer, from its activations a and the errors e of the next layer. */
  function HiddenErrors(q: Squash, m: Matrix, e: seq<real>, a: seq<real>): seq<real> {
    Hadamard(Back(m, e), Slopes(q, a))
  }

  lemma SlopeAt(q: Squash, a: seq<real>, i: nat)
    requires i < |a|
    ensures At(Slopes(q, a), i) == q.slope(a[i])
  {
    assert At(a, i) == a[i];
  }

  lemma TopErrorAt(q: Squash, a: seq<real>, expected: seq<real>, i: nat)
    requires i < |a| == |expected|
    ensures |TopErrors(q, a, expected)| == |a|
    ensures TopErrors(q, a, expected)[i] == (a[i] - expected[i]) * q.slope(a[i])
  {
    SlopeAt(q, a, i);
    assert At(Misses(a, expected), i) == a[i] - expected[i];
  }

  lemma HiddenErrorAt(q: Squash, m: Matrix, e: seq<real>, a: seq<real>, i: nat)
    requires i < |a| == m.cols
    ensures |HiddenErrors(q, m, e, a)| == |a|
    ensures HiddenErrors(q, m, e, a)[i] == ColDot(m, i, e, m.rows) * q.slope(a[i])
  {
    SlopeAt(q, a, i);
    assert At(Back(m, e), i) == ColDot(m, i, e, m.rows);
  }

  method OutputError(q: Squash, a: seq<real>, expected: seq<real>, index: nat) returns (error: real)
    requires index < |a| == |expected|
    ensures |TopErrors(q, a, expected)| == |a| && error == TopErrors(q, a, expected)[index]
  {
    var output := a[index];
    TopErrorAt(q, a, expected, index);
    error := (output - expected[index]) * q.slope(output);
  }

  method HiddenError(q: Squash, m: Matrix, e: seq<real>, a: seq<real>, index: nat) returns (error: real)
    requires m.Valid() && index < |a| == m.cols && |e| == m.rows
    ensures |HiddenErrors(q, m, e, a)| == |a| && error == HiddenErrors(q, m, e, a)[index]
  {
    var propagated := PropagatedError(m, e, index);
    HiddenErrorAt(q, m, e, a, index);
    error := propagated * q.slope(a[index]);
  }

  /** From layer n on, the error buffers hold the error terms. */
  ghost predicate Errors(q: Squash, p: Params, input: seq<real>, expected: seq<real>, buffers: seq<seq<real>>, n: nat)
    requires |buffers| == |p.weights| == |p.biases|
  {
    forall l: nat :: n <= l < |buffers| ==> buffers[l] == Delta(q, p, input, expected, l)
  }

  lemma TopIsRight(q: Squash, p: Params, input: seq<real>, expected: seq<real>, a: seq<real>, was: seq<seq<real>>)
    requires 0 < |was| == |p.weights| == |p.biases| && a == Forward(q, p, input, |p.weights|)
    ensures Errors(q, p, input, expected, was[|was| - 1 := TopErrors(q, a, expected)], |was| - 1)
  {
  }

  lemma HiddenIsRight(q: Squash, p: Params, input: seq<real>, expected: seq<real>, a: seq<real>, was: seq<seq<real>>,
                      l: nat)
    requires l + 1 < |was| == |p.weights| == |p.biases| && a == Forward(q, p, input, l + 1)
    requires Errors(q, p, input, expected, was, l + 1)
    ensures Errors(q, p, input, expected, was[l := HiddenErrors(q, p.weights[l + 1], was[l + 1], a)], l)
  {
  }

  ghost predicate Sized(buffers: seq<seq<real>>, sizes: seq<nat>) {
    |buffers| == |sizes| && forall l :: 0 <= l < |buffers| ==> |buffers[l]| == sizes[l]
  }

  ghost predicate SampleFits(x: Sample, layers: seq<nat>) {
    |layers| > 0 && |x.input| == layers[0] && |x.expected| == layers[|layers| - 1]
  }

  lemma ProductsPrefix(e: seq<real>, a: seq<real>, rows: nat, cols: nat, row: nat, col: nat)
    requires row < rows && col < cols && row < |e| && col < |a|
    ensures |Products(e, a, rows, cols)| == rows * cols && row * cols + col < rows * cols
    ensures Products(e, a, rows, cols)[row * cols + col] == e[row] * a[col]
  {
    ProductsSize(e, a, rows, cols);
    IndexInRange(row, col, rows, cols);
    ProductsGet(e, a, rows, cols, row, col);
  }

  /** The entry (row, col) of a gradient matrix and its place in the row-major vector. */
  method GradientEntry(e: seq<real>, a: seq<real>, row: nat, col: nat, ghost start: nat) returns (k: nat, value: real)
    requires row < |e| && col < |a| && start == row * |a|
    ensures k == start + col < |Products(e, a, |e|, |a|)| && value == Products(e, a, |e|, |a|)[k]
  {
    ProductsPrefix(e, a, |e|, |a|, row, col);
    k := row * |a| + col;
    value := e[row] * a[col];
  }

  lemma Taken(s: seq<real>, t: seq<real>, k: nat)
    requires |s| == |t| && k < |s| && s[..k] == t[..k]
    ensures s[k := t[k]][..k + 1] == t[..k + 1]
  {
  }

  lemma Whole(s: seq<real>, t: seq<real>)
    requires |s| == |t| && s[..|s|] == t[..|s|]
    ensures s == t
  {
    assert s == s[..|s|] && t == t[..|s|];
  }

  /** The first n layers of g hold the gradient. */
  ghost predicate Filled(q: Squash, p: Params, input: seq<real>, expected: seq<real>, g: Params, n: nat)
    requires n <= |p.weights| == |p.biases|
  {
    && SameLayers(g, p)
    && (forall l: nat :: l < n ==> g.weights[l] == WeightGradient(q, p, input, expected, l))
    && (forall l: nat :: l < n ==> g.biases[l] == BiasGradient(q, p, input, expected, l))
  }

  lemma FilledIsGradient(q: Squash, p: Params, input: seq<real>, expected: seq<real>, g: Params)
    requires |p.weights| == |p.biases| && Filled(q, p, input, expected, g, |p.weights|)
    ensures g == Gradient(q, p, input, expected)
  {
    var e := Gradient(q, p, input, expected);
    assert g.weights == e.weights && g.biases == e.biases;
  }

  /** `goal` up to k, `was` from there on: a vector that a loop is overwriting. */
  function Partly(goal: seq<real>, was: seq<real>, k: nat): seq<real>
    requires k <= |goal| == |was|
  {
    goal[..k] + was[k..]
  }

  lemma PartlyNext(goal: seq<real>, was: seq<real>, k: nat)
    requires k < |goal| == |was|
    ensures Partly(goal, was, k)[k] == was[k]
    ensures Partly(goal, was, k)[k := goal[k]] == Partly(goal, was, k + 1)
  {
  }

  lemma PartlyEnds(goal: seq<real>, was: seq<real>)
    requires |goal| == |was|
    ensures Partly(goal, was, 0) == was && Partly(goal, was, |was|) == goal
  {
  }

  /** The update of one scalar. */
  method Update(c: Settings, gradient: real, velocity: real, value: real, ghost g: seq<real>, ghost v: seq<real>,
                ghost w: seq<real>, ghost k: nat)
    returns (update: real, next: real)
    requires k < |g| == |v| == |w| && gradient == g[k] && velocity == v[k] && value == w[k]
    ensures update == Mix(c, g, v)[k] && next == Add(w, Mix(c, g, v), 1.0)[k]
  {
    update := -c.rate * gradient + c.momentum * velocity;
    next := value + update;
    assert At(Mix(c, g, v), k) == update;
  }

  lemma NextFilled(q: Squash, p: Params, input: seq<real>, expected: seq<real>, before: Params, g: Params,
                   layers: seq<nat>, l: nat)
    requires l < |p.weights| == |p.biases| == |layers| - 1 && Shaped(before, layers)
    requires LayerShaped(p, layers, l) && (l + 1 < |p.weights| ==> LayerShaped(p, layers, l + 1))
    requires Filled(q, p, input, expected, before, l)
    requires
      var e := Delta(q, p, input, expected, l);
      && g.weights == before.weights[l :=
           Matrix(layers[l + 1], layers[l], Products(e, Forward(q, p, input, l), layers[l + 1], layers[l]))]
      && g.biases == before.biases[l := e]
    ensures Shaped(g, layers) && Filled(q, p, input, expected, g, l + 1)
  {
    DeltaSize(q, p, input, expected, layers, l);
    ProductsSize(Delta(q, p, input, expected, l), Forward(q, p, input, l), layers[l + 1], layers[l]);
    forall k: nat | k < |g.weights|
      ensures LayerShaped(g, layers, k)
    {
      assert LayerShaped(before, layers, k);
    }
  }

  /** A learner whose first n layers are already those of `goal`, and the others still those of `was`. */
  ghost predicate Replacing(was: Learner, goal: Learner, now: Learner, n: nat) {
    && SameLayers(now.p, now.v) && SameLayers(was.p, was.v) && SameLayers(goal.p, goal.v)
    && SameLayers(now.p, was.p) && SameLayers(now.p, goal.p)
    && (forall l :: 0 <= l < |now.p.weights| ==> now.p.weights[l] == (if l < n then goal else was).p.weights[l])
    && (forall l :: 0 <= l < |now.p.weights| ==> now.v.weights[l] == (if l < n then goal else was).v.weights[l])
    && (forall l :: 0 <= l < |now.p.weights| ==> now.p.biases[l] == (if l < n then goal else was).p.biases[l])
    && (forall l :: 0 <= l < |now.p.weights| ==> now.v.biases[l] == (if l < n then goal else was).v.biases[l])
  }

  lemma ReplacedAll(was: Learner, goal: Learner, now: Learner)
    requires Replacing(was, goal, now, |now.p.weights|)
    ensures now == goal
  {
    assert now.p.weights == goal.p.weights && now.p.biases == goal.p.biases;
    assert now.v.weights == goal.v.weights && now.v.biases == goal.v.biases;
  }

  /** now is before with layer l updated as apply_gradients does. */
  ghost predicate LayerApplied(c: Settings, g: Params, before: Learner, now: Learner, l: nat)
    requires l < |g.weights| && SameLayers(g, before.p) && SameLayers(before.p, before.v)
  {
    var u := Mix(c, g.weights[l].data, before.v.weights[l].data);
    var b := Mix(c, g.biases[l], before.v.biases[l]);
    && now.v.weights == before.v.weights[l := before.v.weights[l].(data := u)]
    && now.p.weights == before.p.weights[l := before.p.weights[l].(data := Add(before.p.weights[l].data, u, 1.0))]
    && now.v.biases == before.v.biases[l := b]
    && now.p.biases == before.p.biases[l := Add(before.p.biases[l], b, 1.0)]
  }

  lemma ReplacedLayer(c: Settings, was: Learner, g: Params, before: Learner, now: Learner, l: nat)
    requires SameLayers(was.p, was.v) && SameLayers(g, was.v) && l < |g.weights|
    requires Replacing(was, Applied(c, was, g), before, l) && LayerApplied(c, g, before, now, l)
    ensures Replacing(was, Applied(c, was, g), now, l + 1)
  {
  }

  function Zeros(n: nat): (r: seq<real>)
    ensures |r| == n
  {
    seq(n, _ => 0.0)
  }

  function Drawn(layers: seq<nat>, draw: (nat, nat) -> real, l: nat): Matrix
    requires l < |layers| - 1
  {
    Matrix(layers[l + 1], layers[l], seq(layers[l + 1] * layers[l], k requires 0 <= k => draw(l, k)))
  }

  function Blank(layers: seq<nat>, l: nat): Matrix
    requires l < |layers| - 1
  {
    Matrix(layers[l + 1], layers[l], Zeros(layers[l + 1] * layers[l]))
  }

  // ---------------------------------------------------------------- the error of a data set

  function SquaredUpTo(output: seq<real>, expected: seq<real>, n: nat): (r: real)
    ensures r >= 0.0
  {
    if n == 0 then 0.0
    else
      var difference := At(expected, n - 1) - At(output, n - 1);
      SquaredUpTo(output, expected, n - 1) + difference * difference
  }

  function SquaredError(q: Squash, p: Params, dataset: seq<Sample>, n: nat): (r: real)
    requires n <= |dataset| && |p.weights| == |p.biases|
    ensures r >= 0.0
  {
    if n == 0 then 0.0
    else
      var x, output := dataset[n - 1], Output(q, p, dataset[n - 1].input);
      SquaredError(q, p, dataset, n - 1) + SquaredUpTo(output, x.expected, |output|)
  }

  /** dataset_rmse squared */
  function MeanSquare(q: Squash, p: Params, dataset: seq<Sample>, outputs: nat): real
    requires |p.weights| == |p.biases| && outputs > 0
  {
    if dataset == [] then 0.0 else SquaredError(q, p, dataset, |dataset|) / Count(|dataset|, outputs)
  }

  function Count(samples: nat, outputs: nat): (r: real)
    ensures samples > 0 && outputs > 0 ==> r >= 1.0
  {
    if samples == 0 then 0.0 else Count(samples - 1, outputs) + outputs as real
  }

  /** training_error() > target, without the square root */
  predicate TooFar(q: Squash, p: Params, dataset: seq<Sample>, outputs: nat, target: real)
    requires |p.weights| == |p.biases| && outputs > 0
  {
    MeanSquare(q, p, dataset, outputs) > target * target
  }

  lemma NotAboveWithoutSamples(q: Squash, p: Params, outputs: nat, target: real)
    requires |p.weights| == |p.biases| && outputs > 0
    ensures !TooFar(q, p, [], outputs, target)
  {
    Square(target);
  }

  lemma Square(x: real)
    ensures x * x >= 0.0
  {
  }

  /** The target was missed before each of these epochs. */
  ghost predicate Trail(c: Settings, s: Learner, training: seq<Sample>, orders: seq<seq<nat>>, outputs: nat,
    target: real)
    requires AreOrders(orders, |training|) && SameLayers(s.p, s.v) && outputs > 0
  {
    forall n :: 0 <= n < |orders| ==> TooFar(c.q, Epochs(c, s, training, orders[..n]).p, training, outputs, target)
  }

  lemma TrailGrows(c: Settings, s: Learner, training: seq<Sample>, orders: seq<seq<nat>>, more: seq<seq<nat>>,
                   outputs: nat, target: real)
    requires AreOrders(orders, |training|) && SameLayers(s.p, s.v) && outputs > 0
    requires AreOrders(orders + more, |training|) && |more| == 1
    requires Trail(c, s, training, orders, outputs, target)
    requires TooFar(c.q, Epochs(c, s, training, orders).p, training, outputs, target)
    ensures Trail(c, s, training, orders + more, outputs, target)
  {
    forall n | 0 <= n < |orders + more|
      ensures TooFar(c.q, Epochs(c, s, training, (orders + more)[..n]).p, training, outputs, target)
    {
      if n < |orders| {
        assert (orders + more)[..n] == orders[..n];
      } else {
        assert (orders + more)[..n] == orders;
      }
    }
  }

  lemma SquareGrows(a: real, b: real)
    requires 0.0 <= a <= b
    ensures a * a <= b * b && (a < b ==> a * a < b * b)
  {
    ProductSign(b - a, b + a);
    assert b * b - a * a == (b - a) * (b + a);
  }

  lemma ProductSign(x: real, y: real)
    requires x >= 0.0 && y >= 0.0
    ensures x * y >= 0.0 && (x > 0.0 && y > 0.0 ==> x * y > 0.0)
  {
  }

  /** The source compares the root r of the mean square with the target; squaring the target is the same. */
  lemma RootComparison(r: real, mean: real, target: real)
    requires r >= 0.0 && r * r == mean && target >= 0.0
    ensures r > target <==> mean > target * target
  {
    if r > target {
      SquareGrows(target, r);
    } else {
      SquareGrows(r, target);
    }
  }

  /** Where the k-th batch of teach begins. */
  function Boundary(k: nat, step: nat): nat {
    k * step
  }

  lemma LaterBoundary(k: nat, n: nat, step: nat)
    requires n < k
    ensures Boundary(n, step) + step <= Boundary(k, step)
  {
    assert k * step == n * step + (k - n) * step;
    assert (k - n) * step == step + (k - n - 1) * step;
  }

  /** The n-th boundary is the end of `orders`, and no other lies within the batch that follows. */
  lemma BoundaryBefore(orders: seq<seq<nat>>, more: seq<seq<nat>>, step: nat, n: nat, k: nat)
    requires |more| <= step && |orders| == Boundary(n, step) && Boundary(k, step) < |orders + more|
    ensures (orders + more)[..Boundary(k, step)] == orders
         || (Boundary(k, step) < |orders| && (orders + more)[..Boundary(k, step)] == orders[..Boundary(k, step)])
  {
    if k > n {
      LaterBoundary(k, n, step);
    } else if k < n {
      LaterBoundary(n, k, step);
    }
    if Boundary(k, step) < |orders| {
      assert (orders + more)[..Boundary(k, step)] == orders[..Boundary(k, step)];
    } else {
      assert (orders + more)[..Boundary(k, step)] == orders;
    }
  }

  /** The target was not met where any of the batches began. */
  ghost predicate BatchTrail(c: Settings, s: Learner, training: seq<Sample>, orders: seq<seq<nat>>, outputs: nat,
                             target: real, step: nat)
    requires AreOrders(orders, |training|) && SameLayers(s.p, s.v) && outputs > 0
  {
    forall k: nat :: Boundary(k, step) < |orders| ==>
      TooFar(c.q, Epochs(c, s, training, orders[..Boundary(k, step)]).p, training, outputs, target)
  }

  lemma BatchTrailGrows(c: Settings, s: Learner, training: seq<Sample>, orders: seq<seq<nat>>, more: seq<seq<nat>>,
                        outputs: nat, target: real, step: nat, n: nat)
    requires AreOrders(orders, |training|) && SameLayers(s.p, s.v) && outputs > 0
    requires AreOrders(orders + more, |training|) && |more| <= step && |orders| == Boundary(n, step)
    requires BatchTrail(c, s, training, orders, outputs, target, step)
    requires TooFar(c.q, Epochs(c, s, training, orders).p, training, outputs, target)
    ensures BatchTrail(c, s, training, orders + more, outputs, target, step)
  {
    forall k: nat | Boundary(k, step) < |orders + more|
      ensures TooFar(c.q, Epochs(c, s, training, (orders + more)[..Boundary(k, step)]).p, training, outputs, target)
    {
      BoundaryBefore(orders, more, step, n, k);
    }
  }

  /** The longest that teach may train. */
  const MAX_LEGACY_EPOCHS := 1000000

  // ---------------------------------------------------------------- gradient_check

  lemma ReplacedShaped(p: Params, at: Position, value: real, layers: seq<nat>)
    requires Shaped(p, layers) && Exists(p, at)
    ensures Shaped(Replaced(p, at, value), layers) && Exists(Replaced(p, at, value), at)
  {
    forall l: nat | l < |p.weights|
      ensures LayerShaped(Replaced(p, at, value), layers, l)
    {
      assert LayerShaped(p, layers, l);
    }
  }

  lemma BumpTwice(v: seq<real>, k: nat, x: real, y: real)
    requires k < |v|
    ensures |Bump(v, k, x)| == |v| && Bump(Bump(v, k, x), k, y) == Bump(v, k, y)
    ensures Bump(v, k, v[k]) == v
  {
  }

  lemma ReplacedTwice(p: Params, at: Position, x: real, y: real)
    requires |p.weights| == |p.biases| && Exists(p, at)
    ensures Exists(Replaced(p, at, x), at) && Replaced(Replaced(p, at, x), at, y) == Replaced(p, at, y)
    ensures Replaced(p, at, Scalar(p, at)) == p
  {
    if at.weight {
      BumpTwice(p.weights[at.layer].data, at.index, x, y);
    } else {
      BumpTwice(p.biases[at.layer], at.index, x, y);
    }
  }

  /** What gradient_check computes for one scalar. */
  function Discrepancy(q: Squash, p: Params, g: Params, x: Sample, at: Position, epsilon: real): real
    requires |p.weights| == |p.biases| && Exists(p, at) && |g.weights| == |g.biases| && Exists(g, at) && epsilon > 0.0
  {
    RelativeError(Scalar(g, at), Numerical(q, p, x, at, epsilon))
  }

  /** Positions in the order in which gradient_check visits them. */
  predicate Visited(at: Position, layer: nat, weights: nat, biases: nat) {
    at.layer < layer || (at.layer == layer && at.index < if at.weight then weights else biases)
  }

  /** largest is the largest discrepancy over the visited scalars, or zero if there is none. */
  ghost predicate IsLargest(q: Squash, p: Params, g: Params, x: Sample, epsilon: real, largest: real,
                            layer: nat, weights: nat, biases: nat)
    requires SameLayers(p, g) && epsilon > 0.0
  {
    && (forall at: Position :: Exists(p, at) && Exists(g, at) && Visited(at, layer, weights, biases) ==>
          Discrepancy(q, p, g, x, at, epsilon) <= largest)
    && (largest == 0.0 || exists at: Position :: Exists(p, at) && Exists(g, at) && Visited(at, layer, weights, biases)
                                                 && Discrepancy(q, p, g, x, at, epsilon) == largest)
  }

  lemma LargestGrows(q: Squash, p: Params, g: Params, x: Sample, epsilon: real, largest: real, at: Position,
                     layer: nat, w: nat, b: nat, w': nat, b': nat)
    requires SameLayers(p, g) && epsilon > 0.0 && IsLargest(q, p, g, x, epsilon, largest, layer, w, b)
    requires Exists(p, at) && Exists(g, at)
    requires (w' == w + 1 && b' == b && at == Position(true, layer, w))
          || (w' == w && b' == b + 1 && at == Position(false, layer, b))
    ensures IsLargest(q, p, g, x, epsilon, Largest(largest, Discrepancy(q, p, g, x, at, epsilon)), layer, w', b')
  {
    assert forall a: Position :: Visited(a, layer, w', b') <==> Visited(a, layer, w, b) || a == at;
  }

  lemma LargestNextLayer(q: Squash, p: Params, g: Params, x: Sample, epsilon: real, largest: real, layer: nat)
    requires SameLayers(p, g) && epsilon > 0.0 && layer < |p.weights|
    requires IsLargest(q, p, g, x, epsilon, largest, layer, |p.weights[layer].data|, |p.biases[layer]|)
    ensures IsLargest(q, p, g, x, epsilon, largest, layer + 1, 0, 0)
  {
    assert forall a: Position :: Exists(p, a) ==>
      (Visited(a, layer + 1, 0, 0) <==> Visited(a, layer, |p.weights[layer].data|, |p.biases[layer]|));
  }

  class Network {
    const layers: seq<nat>
    const settings: Settings
    const exponential: real -> real
    const beta: real
    var weights: seq<Matrix>
    var velocityWeights: seq<Matrix>
    var biases: seq<seq<real>>
    var velocityBiases: seq<seq<real>>
    var training: seq<Sample>
    var trainingOrder: seq<nat>
    var tests: seq<Sample>
    var activations: seq<seq<real>>
    var deltas: seq<seq<real>>
    var gradientWeights: seq<Matrix>
    var gradientBiases: seq<seq<real>>

    /** The constructor, on a configuration that CheckConfiguration accepts; `draw` is the random source. */
    constructor (layers: seq<nat>, rate: real, momentum: real, beta: real, exp: real -> real,
      draw: (nat, nat) -> real)
      requires CheckConfiguration(layers, rate, momentum, beta).Success?
      ensures Valid() && this.layers == layers && IsSigmoidal()
      ensures this.exponential == exp && this.beta == beta && settings.rate == rate && settings.momentum == momentum
      ensures training == [] && tests == []
      ensures forall l: nat :: l < |weights| ==> weights[l] == Drawn(layers, draw, l)
      ensures forall l :: 0 <= l < |weights| ==> biases[l] == Zeros(layers[l + 1])
      ensures forall l :: 0 <= l < |weights| ==> velocityBiases[l] == Zeros(layers[l + 1])
      ensures forall l: nat :: l < |weights| ==> velocityWeights[l] == Blank(layers, l)
      ensures BuffersAreZero()
    {
      this.layers := layers;
      settings := Settings(Squash(Sigmoid(exp, beta), SlopeFor(beta)), rate, momentum);
      this.exponential, this.beta := exp, beta;
      weights, velocityWeights, biases, velocityBiases := [], [], [], [];
      training, trainingOrder, tests := [], [], [];
      gradientWeights, gradientBiases := [], [];
      activations, deltas := [], [];
      new;
      InitializeParameters(draw);
      InitializeBuffers();
    }

    /** initialize_parameters: weights and biases */
    method InitializeParameters(draw: (nat, nat) -> real)
      requires |layers| >= 2 && weights == velocityWeights == [] && biases == velocityBiases == []
      modifies `weights, `velocityWeights, `biases, `velocityBiases
      ensures Fits(State(), layers)
      ensures forall l: nat :: l < |weights| ==> weights[l] == Drawn(layers, draw, l)
      ensures forall l :: 0 <= l < |weights| ==> biases[l] == Zeros(layers[l + 1])
      ensures forall l :: 0 <= l < |weights| ==> velocityBiases[l] == Zeros(layers[l + 1])
      ensures forall l: nat :: l < |weights| ==> velocityWeights[l] == Blank(layers, l)
    {
      for layer := 0 to |layers| - 1
        invariant |weights| == |velocityWeights| == |biases| == |velocityBiases| == layer
        invariant forall l: nat :: l < layer ==> weights[l] == Drawn(layers, draw, l)
        invariant forall l: nat :: l < layer ==> velocityWeights[l] == Blank(layers, l)
        invariant forall l :: 0 <= l < layer ==> biases[l] == Zeros(layers[l + 1])
        invariant forall l :: 0 <= l < layer ==> velocityBiases[l] == Zeros(layers[l + 1])
      {
        weights := weights + [Drawn(layers, draw, layer)];
        velocityWeights := velocityWeights + [Blank(layers, layer)];
        biases := biases + [Zeros(layers[layer + 1])];
        velocityBiases := velocityBiases + [Zeros(layers[layer + 1])];
      }
    }

    /** initialize_parameters: the buffers that training reuses */
    method InitializeBuffers()
      requires IsSigmoidal() && Fits(State(), layers) && training == [] && trainingOrder == [] && tests == []
      requires gradientWeights == [] && gradientBiases == []
      modifies `activations, `deltas, `gradientWeights, `gradientBiases
      ensures Valid() && BuffersAreZero()
    {
      activations := seq(|layers|, l requires 0 <= l < |layers| => Zeros(layers[l]));
      deltas := seq(|layers| - 1, l requires 0 <= l < |layers| - 1 => Zeros(layers[l + 1]));
      AllocateGradients();
    }

    method AllocateGradients()
      requires |layers| >= 2 && gradientWeights == [] && gradientBiases == []
      modifies `gradientWeights, `gradientBiases
      ensures Shaped(GradientBuffer(), layers)
      ensures forall l: nat :: l < |layers| - 1 ==> gradientWeights[l] == Blank(layers, l)
      ensures forall l :: 0 <= l < |layers| - 1 ==> gradientBiases[l] == Zeros(layers[l + 1])
    {
      for layer := 0 to |layers| - 1
        invariant |gradientWeights| == |gradientBiases| == layer
        invariant forall l: nat :: l < layer ==> gradientWeights[l] == Blank(layers, l)
        invariant forall l :: 0 <= l < layer ==> gradientBiases[l] == Zeros(layers[l + 1])
      {
        gradientWeights := gradientWeights + [Blank(layers, layer)];
        gradientBiases := gradientBiases + [Zeros(layers[layer + 1])];
      }
    }

    ghost function Parameters(): Params
      reads `weights, `biases
    {
      Params(weights, biases)
    }

    ghost function State(): Learner
      reads `weights, `biases, `velocityWeights, `velocityBiases
    {
      Learner(Params(weights, biases), Params(velocityWeights, velocityBiases))
    }

    ghost function GradientBuffer(): Params
      reads `gradientWeights, `gradientBiases
    {
      Params(gradientWeights, gradientBiases)
    }

    ghost predicate BuffersAreZero()
      reads `activations, `deltas, `gradientWeights, `gradientBiases
    {
      && |activations| == |layers| >= 2 && |deltas| == |gradientWeights| == |gradientBiases| == |layers| - 1
      && (forall l :: 0 <= l < |layers| ==> activations[l] == Zeros(layers[l]))
      && (forall l :: 0 <= l < |layers| - 1 ==> deltas[l] == Zeros(layers[l + 1]))
      && (forall l: nat :: l < |layers| - 1 ==> gradientWeights[l] == Blank(layers, l))
      && (forall l :: 0 <= l < |layers| - 1 ==> gradientBiases[l] == Zeros(layers[l + 1]))
    }

    ghost predicate Buffers()
      reads `activations, `deltas
    {
      |layers| >= 2 && Sized(activations, layers) && Sized(deltas, layers[1..])
    }

    ghost predicate Samples()
      reads `training, `trainingOrder, `tests
    {
      && (forall i :: 0 <= i < |training| ==> SampleFits(training[i], layers))
      && (forall i :: 0 <= i < |tests| ==> SampleFits(tests[i], layers))
      && IsOrder(trainingOrder, |training|)
    }

    /** The squashing function is the sigmoid of this network's steepness, with the slope the code derives. */
    ghost predicate IsSigmoidal() {
      settings.q == Squash(Sigmoid(exponential, beta), SlopeFor(beta))
    }

    /** In every direction the buffer gives the derivative of the loss. */
    ghost predicate HoldsGradient(input: seq<real>, expected: seq<real>)
      reads this
      requires Fits(State(), layers) && Shaped(GradientBuffer(), layers)
    {
      forall d: Params :: Shaped(d, layers) ==> Matches(d, input, expected)
    }

    ghost predicate Matches(d: Params, input: seq<real>, expected: seq<real>)
      reads this
      requires Fits(State(), layers) && Shaped(GradientBuffer(), layers) && Shaped(d, layers)
    {
      Derivative(LossAlong(settings.q, Parameters(), d, input, expected), 0.0, Pairing(GradientBuffer(), d))
    }

    lemma GradientIsHeld(input: seq<real>, expected: seq<real>)
      requires IsSigmoidal() && IsExponential(exponential)
      requires Fits(State(), layers) && Shaped(GradientBuffer(), layers) && |input| == layers[0]
      requires GradientBuffer() == Gradient(settings.q, Parameters(), input, expected)
      ensures HoldsGradient(input, expected)
    {
      forall d: Params | Shaped(d, layers)
        ensures Matches(d, input, expected)
      {
        SigmoidGradient(exponential, beta, Parameters(), d, input, expected, layers);
      }
    }

    ghost predicate Valid()
      reads this
    {
      && IsSigmoidal()
      && Fits(State(), layers)
      && Shaped(GradientBuffer(), layers)
      && Buffers()
      && Samples()
    }

    /** The inner loops of forward_training: from layer l to layer l + 1. */
    method ActivateLayer(l: nat, ghost p: Params, ghost goal: seq<real>)
      requires Sized(activations, layers) && l < |weights| == |biases| == |layers| - 1 && p == Parameters()
      requires LayerShaped(p, layers, l) && |goal| == weights[l].rows
      requires forall r: nat :: r < |goal| ==> goal[r] == settings.q.sigma(PreActivation(p, l, activations[l], r))
      modifies `activations
      ensures Sized(activations, layers) && activations == old(activations)[l + 1 := goal]
    {
      ghost var was := activations;
      for row := 0 to weights[l].rows
        invariant Sized(activations, layers) && activations == was[l + 1 := activations[l + 1]]
        invariant activations[l + 1][..row] == goal[..row]
      {
        var sum := WeightedInput(weights[l], biases[l], activations[l], row);
        assert goal[row] == settings.q.sigma(sum);
        Taken(activations[l + 1], goal, row);
        activations := activations[l + 1 := activations[l + 1][row := settings.q.sigma(sum)]];
      }
      Whole(activations[l + 1], goal);
    }

    /** forward_training: forward, but in the reused activation buffers */
    method ForwardTraining(input: seq<real>)
      requires Valid() && |input| == layers[0]
      modifies `activations
      ensures Valid() && Activated(settings.q, Parameters(), input, activations, |layers|)
    {
      ghost var p, q := Parameters(), settings.q;
      activations := activations[0 := input];
      for l := 0 to |weights|
        invariant Sized(activations, layers) && Activated(q, p, input, activations, l + 1)
      {
        assert LayerShaped(p, layers, l);
        ActivationSize(q, p, input, layers, l);
        forall r: nat | r < weights[l].rows
          ensures |Forward(q, p, input, l + 1)| == weights[l].rows
          ensures Forward(q, p, input, l + 1)[r] == q.sigma(PreActivation(p, l, activations[l], r))
        {
          NextActivation(q, p, input, l, r);
        }
        ActivateLayer(l, p, Forward(q, p, input, l + 1));
      }
    }

    /** The first loop of compute_gradients. */
    method OutputErrors(expected: seq<real>)
      requires Buffers() && |expected| == layers[|layers| - 1]
      modifies `deltas
      ensures Buffers()
      ensures deltas == old(deltas)[|deltas| - 1 := TopErrors(settings.q, activations[|layers| - 1], expected)]
    {
      var top := |deltas| - 1;
      ghost var goal := TopErrors(settings.q, activations[top + 1], expected);
      for index := 0 to layers[top + 1]
        invariant Sized(deltas, layers[1..]) && |goal| == layers[top + 1]
        invariant deltas == old(deltas)[top := deltas[top]] && deltas[top][..index] == goal[..index]
      {
        var error := OutputError(settings.q, activations[top + 1], expected, index);
        Taken(deltas[top], goal, index);
        deltas := deltas[top := deltas[top][index := error]];
      }
      Whole(deltas[top], goal);
    }

    /** One pass of the second loop of compute_gradients: from layer to layer - 1. */
    method PropagateErrors(layer: nat)
      requires Buffers() && 0 < layer < |weights| == |biases| == |layers| - 1
      requires LayerShaped(Parameters(), layers, layer)
      modifies `deltas
      ensures Buffers()
      ensures deltas == old(deltas)[layer - 1 := HiddenErrors(settings.q, weights[layer], old(deltas)[layer],
        activations[layer])]
    {
      var current := layer - 1;
      ghost var goal := HiddenErrors(settings.q, weights[layer], deltas[layer], activations[layer]);
      for index := 0 to layers[layer]
        invariant Sized(deltas, layers[1..]) && |goal| == layers[layer]
        invariant deltas == old(deltas)[current := deltas[current]] && deltas[current][..index] == goal[..index]
      {
        var error := HiddenError(settings.q, weights[layer], deltas[layer], activations[layer], index);
        Taken(deltas[current], goal, index);
        deltas := deltas[current := deltas[current][index := error]];
      }
      Whole(deltas[current], goal);
    }

    /** The backward pass. */
    method BackwardPass(input: seq<real>, expected: seq<real>)
      requires Valid() && SampleFits(Sample(input, expected), layers)
      requires Activated(settings.q, Parameters(), input, activations, |layers|)
      modifies `deltas
      ensures Valid() && Errors(settings.q, Parameters(), input, expected, deltas, 0)
    {
      ghost var p, q := Parameters(), settings.q;
      TopIsRight(q, p, input, expected, activations[|layers| - 1], deltas);
      OutputErrors(expected);
      for layer := |weights| - 1 downto 0
        invariant Buffers() && Errors(q, p, input, expected, deltas, layer)
      {
        assert LayerShaped(p, layers, layer + 1);
        HiddenIsRight(q, p, input, expected, activations[layer + 1], deltas, layer);
        PropagateErrors(layer + 1);
      }
    }

    /** The innermost loop of the third loop of compute_gradients: one row of one gradient matrix. */
    method FillRow(layer: nat, row: nat, cols: nat, ghost goal: seq<real>, ghost start: nat)
      requires layer < |gradientWeights| && layer < |deltas| && layer < |activations| && row < |deltas[layer]|
      requires cols == |activations[layer]| &&
        goal == Products(deltas[layer], activations[layer], |deltas[layer]|, cols)
      requires start == row * cols && start + cols <= |goal| == |gradientWeights[layer].data|
      requires gradientWeights[layer].data[..start] == goal[..start]
      modifies `gradientWeights
      ensures |gradientWeights| == old(|gradientWeights|) && |gradientWeights[layer].data| == |goal|
      ensures gradientWeights == old(gradientWeights)[layer :=
        old(gradientWeights)[layer].(data := gradientWeights[layer].data)]
      ensures gradientWeights[layer].data[..start + cols] == goal[..start + cols]
    {
      ghost var before := gradientWeights;
      for col := 0 to cols
        invariant |gradientWeights| == |before| && |gradientWeights[layer].data| == |goal|
        invariant gradientWeights == before[layer := before[layer].(data := gradientWeights[layer].data)]
        invariant gradientWeights[layer].data[..start + col] == goal[..start + col]
      {
        var k, value := GradientEntry(deltas[layer], activations[layer], row, col, start);
        Taken(gradientWeights[layer].data, goal, k);
        gradientWeights := gradientWeights[layer :=
          gradientWeights[layer].(data := gradientWeights[layer].data[k := value])];
      }
    }

    /** One layer of the third loop of compute_gradients. */
    method FillGradients(layer: nat)
      requires Buffers() && layer < |weights| == |biases| == |gradientWeights| == |gradientBiases| == |layers| - 1
      requires LayerShaped(Parameters(), layers, layer) && LayerShaped(GradientBuffer(), layers, layer)
      modifies `gradientWeights, `gradientBiases
      ensures gradientWeights == old(gradientWeights)[layer :=
        Matrix(layers[layer + 1], layers[layer], Products(deltas[layer], activations[layer], layers[layer + 1],
          layers[layer]))]
      ensures gradientBiases == old(gradientBiases)[layer := deltas[layer]]
    {
      var rows, cols := weights[layer].rows, weights[layer].cols;
      ghost var goal := Products(deltas[layer], activations[layer], rows, cols);
      ghost var before, errors := gradientWeights, deltas[layer];
      ProductsSize(deltas[layer], activations[layer], rows, cols);
      for row := 0 to rows
        invariant |gradientWeights| == |before| && |gradientWeights[layer].data| == |goal|
        invariant gradientWeights == before[layer := before[layer].(data := gradientWeights[layer].data)]
        invariant 0 <= row * cols <= |goal| && gradientWeights[layer].data[..row * cols] == goal[..row * cols]
        invariant |gradientBiases| == |before| && |gradientBiases[layer]| == rows
        invariant gradientBiases == old(gradientBiases)[layer := gradientBiases[layer]]
        invariant gradientBiases[layer][..row] == errors[..row]
      {
        RowFits(row, rows, cols);
        NextRow(row, cols);
        FillRow(layer, row, cols, goal, row * cols);
        Taken(gradientBiases[layer], errors, row);
        gradientBiases := gradientBiases[layer := gradientBiases[layer][row := deltas[layer][row]]];
      }
      Whole(gradientWeights[layer].data, goal);
      Whole(gradientBiases[layer], errors);
    }

    function CheckSample(input: seq<real>, expected: seq<real>): (r: Result<()>)
      requires |layers| > 0
      ensures r.Success? <==> SampleFits(Sample(input, expected), layers)
    {
      if |input| != layers[0] then Failure(InputSizeMismatch)
      else if |expected| != layers[|layers| - 1] then Failure(ExpectedSizeMismatch)
      else Success(())
    }

    /** compute_gradients: afterwards the buffer holds the gradient at the current parameters. */
    method ComputeGradients(input: seq<real>, expected: seq<real>) returns (r: Result<()>)
      requires Valid()
      modifies `activations, `deltas, `gradientWeights, `gradientBiases
      ensures Valid() && r == CheckSample(input, expected)
      ensures r.Failure? ==> unchanged(this)
      ensures r.Success? ==> Activated(settings.q, Parameters(), input, activations, |layers|)
      ensures r.Success? ==> GradientBuffer() == Gradient(settings.q, Parameters(), input, expected)
      ensures r.Success? && IsExponential(exponential) ==> HoldsGradient(input, expected)
    {
      r := CheckSample(input, expected);
      if r.Failure? {
        return;
      }
      ForwardTraining(input);
      BackwardPass(input, expected);
      FillAll(input, expected);
      GradientOf(input, expected);
    }

    lemma GradientOf(input: seq<real>, expected: seq<real>)
      requires Valid() && |input| == layers[0]
      requires GradientBuffer() == Gradient(settings.q, Parameters(), input, expected)
      ensures IsExponential(exponential) ==> HoldsGradient(input, expected)
    {
      if IsExponential(exponential) {
        GradientIsHeld(input, expected);
      }
    }

    /** The third loop of compute_gradients. */
    method FillAll(input: seq<real>, expected: seq<real>)
      requires Valid() && Errors(settings.q, Parameters(), input, expected, deltas, 0)
      requires Activated(settings.q, Parameters(), input, activations, |layers|)
      modifies `gradientWeights, `gradientBiases
      ensures Valid() && GradientBuffer() == Gradient(settings.q, Parameters(), input, expected)
    {
      ghost var p, q := Parameters(), settings.q;
      for layer := 0 to |weights|
        invariant Shaped(GradientBuffer(), layers) && Filled(q, p, input, expected, GradientBuffer(), layer)
      {
        assert LayerShaped(p, layers, layer) && LayerShaped(GradientBuffer(), layers, layer);
        assert layer + 1 < |weights| ==> LayerShaped(p, layers, layer + 1);
        ghost var before := GradientBuffer();
        FillGradients(layer);
        NextFilled(q, p, input, expected, before, GradientBuffer(), layers, layer);
      }
      FilledIsGradient(q, p, input, expected, GradientBuffer());
    }

    /** The weights' part of apply_gradients. */
    method ApplyWeights(g: Params, layer: nat)
      requires layer < |weights| == |velocityWeights| == |g.weights|
      requires |weights[layer].data| == |velocityWeights[layer].data| == |g.weights[layer].data|
      modifies `weights, `velocityWeights
      ensures
        var update := Mix(settings, g.weights[layer].data, old(velocityWeights[layer]).data);
        && velocityWeights == old(velocityWeights)[layer := old(velocityWeights[layer]).(data := update)]
        && weights == old(weights)[layer := old(weights[layer]).(data := Add(old(weights[layer]).data, update, 1.0))]
    {
      var n := |weights[layer].data|;
      ghost var v, w := velocityWeights[layer], weights[layer];
      ghost var update := Mix(settings, g.weights[layer].data, v.data);
      ghost var next := Add(w.data, update, 1.0);
      PartlyEnds(update, v.data);
      PartlyEnds(next, w.data);
      for index := 0 to n
        invariant |weights| == |velocityWeights| == |g.weights|
        invariant velocityWeights == old(velocityWeights)[layer := v.(data := Partly(update, v.data, index))]
        invariant weights == old(weights)[layer := w.(data := Partly(next, w.data, index))]
      {
        PartlyNext(update, v.data, index);
        PartlyNext(next, w.data, index);
        var u, x := Update(settings, g.weights[layer].data[index], velocityWeights[layer].data[index],
                           weights[layer].data[index], g.weights[layer].data, v.data, w.data, index);
        weights := weights[layer := weights[layer].(data := weights[layer].data[index := x])];
        velocityWeights := velocityWeights[layer := velocityWeights[layer].(data := velocityWeights[layer].data[index := u])];
      }
    }

    /** The biases' part of apply_gradients. */
    method ApplyBiases(g: Params, layer: nat)
      requires layer < |biases| == |velocityBiases| == |g.biases|
      requires |biases[layer]| == |velocityBiases[layer]| == |g.biases[layer]|
      modifies `biases, `velocityBiases
      ensures
        var update := Mix(settings, g.biases[layer], old(velocityBiases[layer]));
        && velocityBiases == old(velocityBiases)[layer := update]
        && biases == old(biases)[layer := Add(old(biases[layer]), update, 1.0)]
    {
      var n := |biases[layer]|;
      ghost var v, w := velocityBiases[layer], biases[layer];
      ghost var update := Mix(settings, g.biases[layer], v);
      ghost var next := Add(w, update, 1.0);
      PartlyEnds(update, v);
      PartlyEnds(next, w);
      for index := 0 to n
        invariant |biases| == |velocityBiases| == |g.biases|
        invariant velocityBiases == old(velocityBiases)[layer := Partly(update, v, index)]
        invariant biases == old(biases)[layer := Partly(next, w, index)]
      {
        PartlyNext(update, v, index);
        PartlyNext(next, w, index);
        var u, x := Update(settings, g.biases[layer][index], velocityBiases[layer][index], biases[layer][index],
                           g.biases[layer], v, w, index);
        biases := biases[layer := biases[layer][index := x]];
        velocityBiases := velocityBiases[layer := velocityBiases[layer][index := u]];
      }
    }

    /** apply_gradients */
    method ApplyGradients(g: Params)
      requires Valid() && Shaped(g, layers)
      modifies `weights, `velocityWeights, `biases, `velocityBiases
      ensures Valid() && State() == Applied(settings, old(State()), g)
    {
      ghost var was := State();
      ghost var goal := Applied(settings, was, g);
      for layer := 0 to |weights|
        invariant Replacing(was, goal, State(), layer)
      {
        assert LayerShaped(was.p, layers, layer) && LayerShaped(was.v, layers, layer) && LayerShaped(g, layers, layer);
        ghost var before := State();
        ApplyWeights(g, layer);
        ApplyBiases(g, layer);
        ReplacedLayer(settings, was, g, before, State(), layer);
      }
      ReplacedAll(was, goal, State());
      AppliedFits(settings, was, g, layers);
    }

    /** predict */
    method Predict(input: seq<real>) returns (r: Result<seq<real>>)
      requires Valid()
      ensures r == if |input| == layers[0] then Success(Output(settings.q, Parameters(), input))
                   else Failure(InputSizeMismatch)
    {
      if |input| != layers[0] {
        return Failure(InputSizeMismatch);
      }
      var activations := ForwardPass(settings.q, Params(weights, biases), input, layers);
      return Success(activations[|activations| - 1]);
    }

    /** add_training_sample */
    method AddTrainingSample(input: seq<real>, expected: seq<real>) returns (r: Result<()>)
      requires Valid()
      modifies `training, `trainingOrder
      ensures Valid() && r == CheckSample(input, expected)
      ensures training == if r.Success? then old(training) + [Sample(input, expected)] else old(training)
      ensures r.Failure? ==> trainingOrder == old(trainingOrder)
    {
      r := CheckSample(input, expected);
      if r.Success? {
        training := training + [Sample(input, expected)];
        trainingOrder := trainingOrder + [|training| - 1];
      }
    }

    /** add_test_sample */
    method AddTestSample(input: seq<real>, expected: seq<real>) returns (r: Result<()>)
      requires Valid()
      modifies `tests
      ensures Valid() && r == CheckSample(input, expected)
      ensures tests == if r.Success? then old(tests) + [Sample(input, expected)] else old(tests)
    {
      r := CheckSample(input, expected);
      if r.Success? {
        tests := tests + [Sample(input, expected)];
      }
    }

    /** std::shuffle: swaps at arbitrary places */
    method Shuffle()
      requires IsOrder(trainingOrder, |training|)
      modifies `trainingOrder
      ensures IsOrder(trainingOrder, |training|)
    {
      for i := 0 to |trainingOrder|
        invariant IsOrder(trainingOrder, |training|)
      {
        var j :| i <= j < |trainingOrder|;
        trainingOrder := trainingOrder[i := trainingOrder[j]][j := trainingOrder[i]];
      }
    }

    /** One pass of the inner loop of train. */
    method TrainSample(index: nat)
      requires Valid() && index < |training|
      modifies `weights, `velocityWeights, `biases, `velocityBiases
      modifies `activations, `deltas, `gradientWeights, `gradientBiases
      ensures Valid() && State() == Learned(settings, old(State()), training[index])
    {
      var x := training[index];
      var r := ComputeGradients(x.input, x.expected);
      ApplyGradients(Params(gradientWeights, gradientBiases));
    }

    /** The body of one epoch. */
    method TrainEpoch() returns (ghost order: seq<nat>)
      requires Valid()
      modifies `weights, `velocityWeights, `biases, `velocityBiases, `trainingOrder
      modifies `activations, `deltas, `gradientWeights, `gradientBiases
      ensures Valid() && order == trainingOrder
      ensures State() == Epoch(settings, old(State()), training, order, |training|)
    {
      Shuffle();
      order := trainingOrder;
      ghost var was := State();
      for i := 0 to |trainingOrder|
        invariant Valid() && trainingOrder == order
        invariant State() == Epoch(settings, was, training, order, i)
      {
        TrainSample(trainingOrder[i]);
      }
    }

    /** train: each epoch presents every sample once, in an order of its own, and updates after each. */
    method Train(epochs: nat) returns (ghost orders: seq<seq<nat>>)
      requires Valid()
      modifies `weights, `velocityWeights, `biases, `velocityBiases, `trainingOrder
      modifies `activations, `deltas, `gradientWeights, `gradientBiases
      ensures Valid() && AreOrders(orders, |training|)
      ensures |orders| == if training == [] then 0 else epochs
      ensures State() == Epochs(settings, old(State()), training, orders)
    {
      orders := [];
      if training == [] || epochs == 0 {
        return;
      }
      for epoch := 0 to epochs
        invariant Valid() && AreOrders(orders, |training|) && |orders| == epoch
        invariant State() == Epochs(settings, old(State()), training, orders)
      {
        var order := TrainEpoch();
        assert (orders + [order])[..|orders|] == orders;
        orders := orders + [order];
      }
    }

    method SampleSquares(x: Sample) returns (squares: real)
      requires Valid() && SampleFits(x, layers)
      ensures squares == SquaredUpTo(Output(settings.q, Parameters(), x.input), x.expected, layers[|layers| - 1])
      ensures |Output(settings.q, Parameters(), x.input)| == layers[|layers| - 1]
    {
      var r := Predict(x.input);
      var output := r.value;
      ActivationSize(settings.q, Parameters(), x.input, layers, |layers| - 1);
      squares := SquaresOf(output, x.expected);
    }

    /** The inner loop of dataset_rmse. */
    method SquaresOf(output: seq<real>, expected: seq<real>) returns (squares: real)
      requires |expected| == |output|
      ensures squares == SquaredUpTo(output, expected, |output|)
    {
      squares := 0.0;
      for index := 0 to |output|
        invariant squares == SquaredUpTo(output, expected, index)
      {
        var difference := expected[index] - output[index];
        squares := squares + difference * difference;
      }
    }

    /** dataset_rmse, squared */
    method DatasetError(dataset: seq<Sample>) returns (mean: real)
      requires Valid() && layers[|layers| - 1] > 0
      requires forall i :: 0 <= i < |dataset| ==> SampleFits(dataset[i], layers)
      ensures mean == MeanSquare(settings.q, Parameters(), dataset, layers[|layers| - 1])
    {
      if dataset == [] {
        return 0.0;
      }
      var squared, values := 0.0, 0.0;
      for i := 0 to |dataset|
        invariant squared == SquaredError(settings.q, Parameters(), dataset, i)
        invariant values == Count(i, layers[|layers| - 1])
      {
        var squares := SampleSquares(dataset[i]);
        squared := squared + squares;
        values := values + layers[|layers| - 1] as real;
      }
      return squared / values;
    }

    method TrainingErrorAbove(target: real) returns (above: bool)
      requires Valid() && layers[|layers| - 1] > 0
      ensures above == TooFar(settings.q, Parameters(), training, layers[|layers| - 1], target)
    {
      var mean := DatasetError(training);
      above := mean > target * target;
    }

    /** train_until: stops at the first epoch boundary at which the target is met, or at the limit. */
    method TrainUntil(target: real, maxEpochs: nat) returns (r: Result<nat>, ghost orders: seq<seq<nat>>)
      requires Valid() && layers[|layers| - 1] > 0
      modifies `weights, `velocityWeights, `biases, `velocityBiases, `trainingOrder
      modifies `activations, `deltas, `gradientWeights, `gradientBiases
      ensures Valid() && AreOrders(orders, |training|) && State() == Epochs(settings, old(State()), training, orders)
      ensures target < 0.0 <==> r == Failure(BadTarget)
      ensures target < 0.0 <==> r.Failure?
      ensures r.Failure? ==> orders == []
      ensures r.Success? ==> r.value == |orders| <= maxEpochs
      ensures r.Success? && r.value < maxEpochs ==>
        !TooFar(settings.q, Parameters(), training, layers[|layers| - 1], target)
      ensures r.Success? ==> forall n :: 0 <= n < r.value ==>
        TooFar(settings.q, Epochs(settings, old(State()), training, orders[..n]).p, training, layers[|layers| - 1],
          target)
    {
      orders := [];
      if target < 0.0 {
        return Failure(BadTarget), orders;
      }
      ghost var was := State();
      var epochs := 0;
      var above := TrainingErrorAbove(target);
      NotAboveWithoutSamples(settings.q, Parameters(), layers[|layers| - 1], target);
      while epochs < maxEpochs && above
        invariant Valid() && AreOrders(orders, |training|) && |orders| == epochs <= maxEpochs
        invariant State() == Epochs(settings, was, training, orders)
        invariant above == TooFar(settings.q, Parameters(), training, layers[|layers| - 1], target)
        invariant training == [] ==> !above
        invariant Trail(settings, was, training, orders, layers[|layers| - 1], target)
      {
        ghost var more := Train(1);
        EpochsCompose(settings, was, training, orders, more);
        TrailGrows(settings, was, training, orders, more, layers[|layers| - 1], target);
        orders := orders + more;
        epochs := epochs + 1;
        above := TrainingErrorAbove(target);
      }
      return Success(epochs), orders;
    }

    /** teach with a number of iterations */
    method Teach(iterations: int) returns (r: Result<()>, ghost orders: seq<seq<nat>>)
      requires Valid()
      modifies `weights, `velocityWeights, `biases, `velocityBiases, `trainingOrder
      modifies `activations, `deltas, `gradientWeights, `gradientBiases
      ensures Valid() && AreOrders(orders, |training|) && State() == Epochs(settings, old(State()), training, orders)
      ensures r == if iterations < 0 then Failure(NegativeIterations) else Success(())
      ensures |orders| == if training == [] || iterations < 0 then 0 else iterations
    {
      orders := [];
      if iterations < 0 {
        return Failure(NegativeIterations), orders;
      }
      orders := Train(iterations);
      return Success(()), orders;
    }

    /** teach with a target: batches of `step` epochs, up to a fixed limit or the first boundary between batches
        at which the target is met. */
    method TeachUntil(target: real, step: int) returns (r: Result<nat>, ghost orders: seq<seq<nat>>)
      requires Valid() && layers[|layers| - 1] > 0
      modifies `weights, `velocityWeights, `biases, `velocityBiases, `trainingOrder
      modifies `activations, `deltas, `gradientWeights, `gradientBiases
      ensures Valid() && AreOrders(orders, |training|) && State() == Epochs(settings, old(State()), training, orders)
      ensures step <= 0 ==> r == Failure(StepNotPositive) && orders == []
      ensures step > 0 && target < 0.0 ==> r == Failure(BadTarget) && orders == []
      ensures step > 0 && target >= 0.0 ==>
        (r.Success? <==> !TooFar(settings.q, Parameters(), training, layers[|layers| - 1], target))
      ensures r.Success? ==> r.value == |orders| <= MAX_LEGACY_EPOCHS
      ensures r.Success? ==> r.value == MAX_LEGACY_EPOCHS || exists batches: nat :: r.value == Boundary(batches, step)
      ensures step > 0 ==>
        BatchTrail(settings, old(State()), training, orders, layers[|layers| - 1], target, step)
      ensures step > 0 && target >= 0.0 && r.Failure? ==> r.problem == TargetNotReached && |orders| == MAX_LEGACY_EPOCHS
    {
      orders := [];
      if step <= 0 {
        return Failure(StepNotPositive), orders;
      }
      if target < 0.0 {
        return Failure(BadTarget), orders;
      }
      ghost var was := State();
      ghost var batches: nat := 0;
      var epochs := 0;
      var above := TrainingErrorAbove(target);
      NotAboveWithoutSamples(settings.q, Parameters(), layers[|layers| - 1], target);
      while epochs < MAX_LEGACY_EPOCHS && above
        invariant Valid() && AreOrders(orders, |training|) && |orders| == epochs <= MAX_LEGACY_EPOCHS
        invariant State() == Epochs(settings, was, training, orders)
        invariant above == TooFar(settings.q, Parameters(), training, layers[|layers| - 1], target)
        invariant training == [] ==> !above
        invariant epochs == MAX_LEGACY_EPOCHS || epochs == Boundary(batches, step)
        invariant BatchTrail(settings, was, training, orders, layers[|layers| - 1], target, step)
      {
        var batch := if step < MAX_LEGACY_EPOCHS - epochs then step else MAX_LEGACY_EPOCHS - epochs;
        ghost var more := TrainBatch(batch, target, step, was, orders, batches);
        orders := orders + more;
        epochs := epochs + batch;
        batches := batches + 1;
        above := TrainingErrorAbove(target);
      }
      if above {
        return Failure(TargetNotReached), orders;
      }
      return Success(epochs), orders;
    }

    /** One batch of teach. */
    method TrainBatch(batch: nat, target: real, step: nat, ghost was: Learner, ghost orders: seq<seq<nat>>,
                      ghost batches: nat) returns (ghost more: seq<seq<nat>>)
      requires Valid() && layers[|layers| - 1] > 0 && training != []
      requires AreOrders(orders, |training|) && SameLayers(was.p, was.v)
      requires State() == Epochs(settings, was, training, orders) && |orders| == Boundary(batches, step)
      requires TooFar(settings.q, Parameters(), training, layers[|layers| - 1], target) && batch <= step
      requires BatchTrail(settings, was, training, orders, layers[|layers| - 1], target, step)
      modifies `weights, `velocityWeights, `biases, `velocityBiases, `trainingOrder
      modifies `activations, `deltas, `gradientWeights, `gradientBiases
      ensures Valid() && |more| == batch && AreOrders(orders + more, |training|)
      ensures State() == Epochs(settings, was, training, orders + more)
      ensures BatchTrail(settings, was, training, orders + more, layers[|layers| - 1], target, step)
      ensures batch == step ==> |orders + more| == Boundary(batches + 1, step)
    {
      more := Train(batch);
      EpochsCompose(settings, was, training, orders, more);
      BatchTrailGrows(settings, was, training, orders, more, layers[|layers| - 1], target, step, batches);
      assert (batches + 1) * step == batches * step + step;
    }

    method SetScalar(at: Position, value: real)
      requires |weights| == |biases| && Exists(Parameters(), at)
      modifies `weights, `biases
      ensures Parameters() == Replaced(old(Parameters()), at, value)
    {
      if at.weight {
        weights := weights[at.layer := weights[at.layer].(data := weights[at.layer].data[at.index := value])];
      } else {
        biases := biases[at.layer := biases[at.layer][at.index := value]];
      }
    }

    /** The body of both inner loops of gradient_check. */
    method CheckScalar(at: Position, x: Sample, epsilon: real) returns (error: real)
      requires Shaped(Parameters(), layers) && Shaped(GradientBuffer(), layers) && SampleFits(x, layers) &&
        epsilon > 0.0
      requires Exists(Parameters(), at) && Exists(GradientBuffer(), at)
      modifies `weights, `biases
      ensures Parameters() == old(Parameters())
      ensures error == Discrepancy(settings.q, Parameters(), GradientBuffer(), x, at, epsilon)
    {
      ghost var p := Parameters();
      var original := if at.weight then weights[at.layer].data[at.index] else biases[at.layer][at.index];
      ReplacedShaped(p, at, original + epsilon, layers);
      ReplacedShaped(p, at, original - epsilon, layers);
      ReplacedTwice(p, at, original + epsilon, original - epsilon);
      ReplacedTwice(p, at, original - epsilon, original);
      SetScalar(at, original + epsilon);
      var plus := SampleLoss(settings.q, Params(weights, biases), x.input, x.expected, layers);
      SetScalar(at, original - epsilon);
      var minus := SampleLoss(settings.q, Params(weights, biases), x.input, x.expected, layers);
      SetScalar(at, original);
      var numerical := (plus - minus) / (2.0 * epsilon);
      assert original - epsilon == original + -epsilon;
      var analytical := if at.weight then gradientWeights[at.layer].data[at.index] else gradientBiases[at.layer][at.index];
      error := RelativeError(analytical, numerical);
    }

    /** gradient_check: leaves every parameter as it was and returns the largest relative error. */
    method GradientCheck(input: seq<real>, expected: seq<real>, epsilon: real) returns (r: Result<real>)
      requires Valid()
      modifies `weights, `biases, `activations, `deltas, `gradientWeights, `gradientBiases
      ensures Valid() && Parameters() == old(Parameters())
      ensures CheckSample(input, expected).Failure? ==> r == Failure(CheckSample(input, expected).problem)
      ensures CheckSample(input, expected).Success? ==>
        (r.Success? <==> epsilon > 0.0) && (r.Failure? ==> r.problem == BadEpsilon)
      ensures r.Failure? ==> GradientBuffer() == old(GradientBuffer())
      ensures r.Success? ==> GradientBuffer() == Gradient(settings.q, Parameters(), input, expected)
      ensures r.Success? ==> IsLargest(settings.q, Parameters(), GradientBuffer(), Sample(input, expected), epsilon,
                                       r.value, |weights|, 0, 0)
    {
      var check := CheckSample(input, expected);
      if check.Failure? {
        return Failure(check.problem);
      }
      if epsilon <= 0.0 {
        return Failure(BadEpsilon);
      }
      var ok := ComputeGradients(input, expected);
      var largest := CheckLayers(Sample(input, expected), epsilon);
      return Success(largest);
    }

    /** The loops of gradient_check. */
    method CheckLayers(x: Sample, epsilon: real) returns (largest: real)
      requires Shaped(Parameters(), layers) && Shaped(GradientBuffer(), layers) && SampleFits(x, layers) &&
        epsilon > 0.0
      modifies `weights, `biases
      ensures Parameters() == old(Parameters())
      ensures IsLargest(settings.q, Parameters(), GradientBuffer(), x, epsilon, largest, |weights|, 0, 0)
    {
      ghost var p, g := Parameters(), GradientBuffer();
      largest := 0.0;
      for layer := 0 to |weights|
        invariant Parameters() == p && IsLargest(settings.q, p, g, x, epsilon, largest, layer, 0, 0)
      {
        largest := CheckLayer(layer, x, epsilon, largest);
      }
    }

    /** One pass of the outer loop of gradient_check. */
    method CheckLayer(layer: nat, x: Sample, epsilon: real, before: real) returns (largest: real)
      requires Shaped(Parameters(), layers) && Shaped(GradientBuffer(), layers) && SampleFits(x, layers) &&
        epsilon > 0.0
      requires layer < |weights|
      requires IsLargest(settings.q, Parameters(), GradientBuffer(), x, epsilon, before, layer, 0, 0)
      modifies `weights, `biases
      ensures Parameters() == old(Parameters())
      ensures IsLargest(settings.q, Parameters(), GradientBuffer(), x, epsilon, largest, layer + 1, 0, 0)
    {
      ghost var p, g, q := Parameters(), GradientBuffer(), settings.q;
      assert LayerShaped(p, layers, layer) && LayerShaped(g, layers, layer);
      largest := before;
      for index := 0 to |weights[layer].data|
        invariant Parameters() == p && IsLargest(q, p, g, x, epsilon, largest, layer, index, 0)
      {
        var at := Position(true, layer, index);
        var error := CheckScalar(at, x, epsilon);
        LargestGrows(q, p, g, x, epsilon, largest, at, layer, index, 0, index + 1, 0);
        largest := Largest(largest, error);
      }
      for index := 0 to |biases[layer]|
        invariant Parameters() == p && IsLargest(q, p, g, x, epsilon, largest, layer, |p.weights[layer].data|, index)
      {
        var at := Position(false, layer, index);
        var error := CheckScalar(at, x, epsilon);
        LargestGrows(q, p, g, x, epsilon, largest, at, layer, |p.weights[layer].data|, index,
          |p.weights[layer].data|, index + 1);
        largest := Largest(largest, error);
      }
      LargestNextLayer(q, p, g, x, epsilon, largest, layer);
    }
  }
}