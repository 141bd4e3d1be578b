/** What training does to the parameters, and what a gradient check compares. */
module NeuroTraining {
  import opened NeuroCalculus
  import opened NeuroNetwork
  import opened NeuroSums
  import opened NeuroGradient
  import opened NeuroDerivative

  datatype Sample = Sample(input: seq<real>, expected: seq<real>)

  /** The parameters and their velocity. */
  datatype Learner = Learner(p: Params, v: Params)

  /** The settings of a network that stay fixed after construction. */
  datatype Settings = Settings(q: Squash, rate: real, momentum: real)

  predicate SameLayers(p: Params, d: Params) {
    |p.weights| == |p.biases| == |d.weights| == |d.biases|
  }

  // ---------------------------------------------------------------- one update

  function Mix(c: Settings, g: seq<real>, v: seq<real>): seq<real> {
    seq(|v|, k => -c.rate * At(g, k) + c.momentum * At(v, k))
  }

  function NextVelocity(c: Settings, g: Params, v: Params): Params
    requires SameLayers(g, v)
  {
    Params(seq(|v.weights|, l requires 0 <= l < |v.weights| =>
                 Matrix(v.weights[l].rows, v.weights[l].cols, Mix(c, g.weights[l].data, v.weights[l].data))),
           seq(|v.weights|, l requires 0 <= l < |v.weights| => Mix(c, g.biases[l], v.biases[l])))
  }

  /** apply_gradients */
  function Applied(c: Settings, s: Learner, g: Params): Learner
    requires SameLayers(s.p, s.v) && SameLayers(g, s.v)
  {
    var v := NextVelocity(c, g, s.v);
    Learner(Shift(s.p, v, 1.0), v)
  }

  ghost predicate Fits(s: Learner, layers: seq<nat>) {
    Shaped(s.p, layers) && Shaped(s.v, layers)
  }

  lemma ShiftShaped(p: Params, d: Params, t: real, layers: seq<nat>)
    requires Shaped(p, layers) && SameLayers(p, d)
    ensures Shaped(Shift(p, d, t), layers)
  {
    forall l: nat | l < |p.weights|
      ensures LayerShaped(Shift(p, d, t), layers, l)
    {
      assert LayerShaped(p, layers, l);
    }
  }

  lemma VelocityShaped(c: Settings, g: Params, v: Params, layers: seq<nat>)
    requires Shaped(v, layers) && SameLayers(g, v)
    ensures Shaped(NextVelocity(c, g, v), layers)
  {
    forall l: nat | l < |v.weights|
      ensures LayerShaped(NextVelocity(c, g, v), layers, l)
    {
      assert LayerShaped(v, layers, l);
    }
  }

  lemma AppliedFits(c: Settings, s: Learner, g: Params, layers: seq<nat>)
    requires Fits(s, layers) && SameLayers(g, s.v)
    ensures Fits(Applied(c, s, g), layers)
  {
    VelocityShaped(c, g, s.v, layers);
    ShiftShaped(s.p, NextVelocity(c, g, s.v), 1.0, layers);
  }

  lemma PlainMix(c: Settings, p: seq<real>, g: seq<real>, v: seq<real>)
    requires c.momentum == 0.0 && |p| == |g| == |v|
    ensures Add(p, Mix(c, g, v), 1.0) == Add(p, g, -c.rate)
  {
    forall k | 0 <= k < |p|
      ensures Add(p, Mix(c, g, v), 1.0)[k] == Add(p, g, -c.rate)[k]
    {
      assert At(Mix(c, g, v), k) == -c.rate * At(g, k) + 0.0 * At(v, k);
    }
  }

  /** Without momentum an update moves the parameters against the gradient by the learning rate. */
  lemma PlainStep(c: Settings, s: Learner, g: Params, layers: seq<nat>)
    requires Fits(s, layers) && Shaped(g, layers) && c.momentum == 0.0
    ensures Applied(c, s, g).p == Shift(s.p, g, -c.rate)
  {
    var a, b := Applied(c, s, g).p, Shift(s.p, g, -c.rate);
    forall l | 0 <= l < |s.p.weights|
      ensures a.weights[l] == b.weights[l] && a.biases[l] == b.biases[l]
    {
      assert LayerShaped(s.p, layers, l) && LayerShaped(s.v, layers, l) && LayerShaped(g, layers, l);
      PlainMix(c, s.p.weights[l].data, g.weights[l].data, s.v.weights[l].data);
      PlainMix(c, s.p.biases[l], g.biases[l], s.v.biases[l]);
    }
    assert a.weights == b.weights && a.biases == b.biases;
  }

  function SampleGradient(c: Settings, s: Learner, x: Sample): Params
    requires |s.p.weights| == |s.p.biases|
  {
    Gradient(c.q, s.p, x.input, x.expected)
  }

  /** compute_gradients and apply_gradients for one sample */
  function Learned(c: Settings, s: Learner, x: Sample): (r: Learner)
    requires SameLayers(s.p, s.v)
    ensures SameLayers(r.p, r.v)
  {
    Applied(c, s, SampleGradient(c, s, x))
  }

  ghost predicate Lowered(q: Squash, s: Learner, x: Sample, rate: real)
    requires SameLayers(s.p, s.v)
  {
    LossFalls(q, s.p, Learned(Settings(q, rate, 0.0), s, x).p, x.input, x.expected)
  }

  lemma LearnedIsApplied(c: Settings, s: Learner, x: Sample, g: Params)
    requires SameLayers(s.p, s.v) && g == SampleGradient(c, s, x)
    ensures Learned(c, s, x) == Applied(c, s, g)
  {
  }

  lemma AppliedIsShift(c: Settings, s: Learner, g: Params, layers: seq<nat>, rate: real)
    requires Fits(s, layers) && Shaped(g, layers) && c.momentum == 0.0 && rate == c.rate
    ensures Applied(c, s, g).p == Shift(s.p, g, -rate)
  {
    PlainStep(c, s, g, layers);
  }

  lemma AfterPlainStep(c: Settings, s: Learner, x: Sample, g: Params, layers: seq<nat>, rate: real)
    returns (after: Params)
    requires Fits(s, layers) && Shaped(g, layers) && c.momentum == 0.0 && rate == c.rate
    requires g == SampleGradient(c, s, x)
    ensures |after.weights| == |after.biases| && after == Shift(s.p, g, -rate) == Learned(c, s, x).p
  {
    LearnedIsApplied(c, s, x, g);
    AppliedIsShift(c, s, g, layers, rate);
    after := Applied(c, s, g).p;
  }

  lemma FallIsLowering(q: Squash, s: Learner, x: Sample, rate: real, after: Params)
    requires SameLayers(s.p, s.v) && after == Learned(Settings(q, rate, 0.0), s, x).p
    requires LossFalls(q, s.p, after, x.input, x.expected)
    ensures Lowered(q, s, x, rate)
  {
  }

  lemma ImprovementFalls(q: Squash, p: Params, g: Params, x: Sample, rate: real, after: Params)
    requires SameLayers(p, g) && after == Shift(p, g, -rate) && Improves(q, p, g, x.input, x.expected, rate)
    ensures LossFalls(q, p, after, x.input, x.expected)
  {
  }

  lemma ImprovementIsLowering(q: Squash, s: Learner, x: Sample, g: Params, layers: seq<nat>, rate: real)
    requires Fits(s, layers) && Shaped(g, layers) && g == Gradient(q, s.p, x.input, x.expected)
    requires Improves(q, s.p, g, x.input, x.expected, rate)
    ensures Lowered(q, s, x, rate)
  {
    var c := Settings(q, rate, 0.0);
    assert g == SampleGradient(c, s, x);
    var after := AfterPlainStep(c, s, x, g, layers, rate);
    ImprovementFalls(q, s.p, g, x, rate, after);
    FallIsLowering(q, s, x, rate, after);
  }

  /** Whatever the network, presenting a sample whose gradient is not zero lowers its loss, provided the
      learning rate is small enough and there is no momentum. */
  lemma LearningLowersLoss(q: Squash, s: Learner, x: Sample, g: Params, layers: seq<nat>) returns (delta: real)
    requires Fits(s, layers) && Smooth(q) && |x.input| == layers[0]
    requires g == Gradient(q, s.p, x.input, x.expected) && Pairing(g, g) > 0.0
    ensures delta > 0.0 && forall rate: real :: 0.0 < rate < delta ==> Lowered(q, s, x, rate)
  {
    GradientShaped(q, s.p, x.input, x.expected, layers);
    delta := StepLowersLoss(q, s.p, g, x.input, x.expected, layers);
    forall rate: real | 0.0 < rate < delta
      ensures Lowered(q, s, x, rate)
    {
      assert Improves(q, s.p, g, x.input, x.expected, rate);
      ImprovementIsLowering(q, s, x, g, layers, rate);
    }
  }

  // ---------------------------------------------------------------- epochs

  /** A permutation of the sample indices. */
  ghost predicate IsOrder(order: seq<nat>, n: nat) {
    && |order| == n
    && (forall i :: 0 <= i < n ==> order[i] < n)
    && (forall i, j :: 0 <= i < j < n ==> order[i] != order[j])
  }

  function Below(n: nat): (r: set<nat>)
    ensures forall k :: k in r <==> 0 <= k < n
  {
    if n == 0 then {} else Below(n - 1) + {n - 1}
  }

  lemma {:induction false} BelowSize(n: nat)
    ensures |Below(n)| == n
  {
    if n > 0 {
      BelowSize(n - 1);
    }
  }

  lemma {:induction false} Distinct(order: seq<nat>, rest: set<nat>)
    requires forall i :: 0 <= i < |order| ==> order[i] in rest
    requires forall i, j :: 0 <= i < j < |order| ==> order[i] != order[j]
    ensures |order| <= |rest|
    ensures |order| == |rest| ==> forall k :: k in rest ==> k in order
  {
    if order != [] {
      var last := order[|order| - 1];
      Distinct(order[..|order| - 1], rest - {last});
      assert forall k :: k in order[..|order| - 1] ==> k in order;
    }
  }

  /** An epoch presents every training sample, and none of them twice. */
  lemma OrderCoversAll(order: seq<nat>, n: nat, k: nat)
    requires IsOrder(order, n) && k < n
    ensures exists i :: 0 <= i < n && order[i] == k
    ensures forall i, j :: 0 <= i < n && 0 <= j < n && order[i] == k && order[j] == k ==> i == j
  {
    BelowSize(n);
    Distinct(order, Below(n));
    assert k in order;
  }

  /** The first n samples of an epoch. */
  function Epoch(c: Settings, s: Learner, training: seq<Sample>, order: seq<nat>, n: nat): (r: Learner)
    requires n <= |order| && SameLayers(s.p, s.v)
    requires forall i :: 0 <= i < |order| ==> order[i] < |training|
    ensures SameLayers(r.p, r.v)
  {
    if n == 0 then s else Learned(c, Epoch(c, s, training, order, n - 1), training[order[n - 1]])
  }

  ghost predicate AreOrders(orders: seq<seq<nat>>, n: nat) {
    forall e :: 0 <= e < |orders| ==> IsOrder(orders[e], n)
  }

  /** Training with the given order in each epoch. */
  ghost function Epochs(c: Settings, s: Learner, training: seq<Sample>, orders: seq<seq<nat>>): (r: Learner)
    requires AreOrders(orders, |training|) && SameLayers(s.p, s.v)
    ensures SameLayers(r.p, r.v)
  {
    if orders == [] then s
    else
      var last := |orders| - 1;
      Epoch(c, Epochs(c, s, training, orders[..last]), training, orders[last], |training|)
  }

  lemma {:induction false} EpochsCompose(c: Settings, s: Learner, training: seq<Sample>, first: seq<seq<nat>>,
                                         second: seq<seq<nat>>)
    requires AreOrders(first, |training|) && AreOrders(second, |training|) && SameLayers(s.p, s.v)
    ensures AreOrders(first + second, |training|)
    ensures Epochs(c, s, training, first + second) == Epochs(c, Epochs(c, s, training, first), training, second)
  {
    if second == [] {
      assert first + second == first;
    } else {
      var last := |second| - 1;
      EpochsCompose(c, s, training, first, second[..last]);
      assert (first + second)[..|first + second| - 1] == first + second[..last];
    }
  }

  // ---------------------------------------------------------------- the numerical gradient

  /** One scalar parameter. */
  datatype Position = Position(weight: bool, layer: nat, index: nat)

  predicate Exists(p: Params, x: Position)
    requires |p.weights| == |p.biases|
  {
    && x.layer < |p.weights|
    && x.index < if x.weight then |p.weights[x.layer].data| else |p.biases[x.layer]|
  }

  function Scalar(p: Params, x: Position): real
    requires |p.weights| == |p.biases| && Exists(p, x)
  {
    if x.weight then p.weights[x.layer].data[x.index] else p.biases[x.layer][x.index]
  }

  /** One update, scalar by scalar: the velocity keeps the share that momentum says and gives way against the gradient
      by the learning rate; the parameter moves by its new velocity. */
  lemma UpdateIsMomentum(c: Settings, s: Learner, g: Params, layers: seq<nat>, x: Position)
    requires Fits(s, layers) && Shaped(g, layers) && Exists(s.p, x)
    ensures
      var after := Applied(c, s, g);
      && Exists(g, x) && Exists(s.v, x) && SameLayers(after.p, after.v) && Exists(after.p, x) && Exists(after.v, x)
      && Scalar(after.v, x) == c.momentum * Scalar(s.v, x) - c.rate * Scalar(g, x)
      && Scalar(after.p, x) == Scalar(s.p, x) + Scalar(after.v, x)
  {
    assert LayerShaped(s.p, layers, x.layer) && LayerShaped(s.v, layers, x.layer) && LayerShaped(g, layers, x.layer);
  }

  /** The states through which an epoch passes. */
  ghost predicate Presents(c: Settings, states: seq<Learner>, training: seq<Sample>, order: seq<nat>) {
    && |states| == |order| + 1
    && forall i :: 0 <= i < |order| ==>
         order[i] < |training| && SameLayers(states[i].p, states[i].v)
         && states[i + 1] == Learned(c, states[i], training[order[i]])
  }

  lemma {:induction false} PartPresents(c: Settings, s: Learner, training: seq<Sample>, order: seq<nat>, n: nat)
    returns (states: seq<Learner>)
    requires n <= |order| && SameLayers(s.p, s.v) && forall i :: 0 <= i < |order| ==> order[i] < |training|
    ensures Presents(c, states, training, order[..n]) && states[0] == s
    ensures states[n] == Epoch(c, s, training, order, n)
  {
    if n == 0 {
      states := [s];
    } else {
      var before := PartPresents(c, s, training, order, n - 1);
      states := before + [Epoch(c, s, training, order, n)];
      forall i | 0 <= i < n
        ensures SameLayers(states[i].p, states[i].v)
             && states[i + 1] == Learned(c, states[i], training[order[..n][i]])
      {
        assert states[i] == before[i];
        if i < n - 1 {
          assert states[i + 1] == before[i + 1] && order[..n - 1][i] == order[i];
        }
      }
    }
  }

  /** An epoch presents the samples of its order, one after the other, each to the network that the one before has
      left. */
  lemma EpochPresentsOrder(c: Settings, s: Learner, training: seq<Sample>, order: seq<nat>)
    returns (states: seq<Learner>)
    requires SameLayers(s.p, s.v) && IsOrder(order, |training|)
    ensures Presents(c, states, training, order) && states[0] == s
    ensures states[|training|] == Epoch(c, s, training, order, |training|)
  {
    states := PartPresents(c, s, training, order, |training|);
    assert order[..|training|] == order;
  }

  /** Training for one epoch is that epoch. */
  lemma OneEpoch(c: Settings, s: Learner, training: seq<Sample>, order: seq<nat>)
    requires SameLayers(s.p, s.v) && IsOrder(order, |training|)
    ensures AreOrders([order], |training|)
    ensures Epochs(c, s, training, [order]) == Epoch(c, s, training, order, |training|)
  {
    assert [order][..0] == [];
  }

  function Bump(v: seq<real>, k: nat, value: real): seq<real>
    requires k < |v|
  {
    v[k := value]
  }

  /** p with one scalar replaced */
  function Replaced(p: Params, x: Position, value: real): Params
    requires |p.weights| == |p.biases| && Exists(p, x)
  {
    if x.weight then
      p.(weights := p.weights[x.layer := p.weights[x.layer].(data := Bump(p.weights[x.layer].data, x.index, value))])
    else
      p.(biases := p.biases[x.layer := Bump(p.biases[x.layer], x.index, value)])
  }

  function Nudged(p: Params, x: Position, step: real): Params
    requires |p.weights| == |p.biases| && Exists(p, x)
  {
    Replaced(p, x, Scalar(p, x) + step)
  }

  function Unit(n: nat, k: int): seq<real> {
    seq(n, i => if i == k then 1.0 else 0.0)
  }

  function Slot(x: Position, weight: bool, l: nat): int {
    if x.weight == weight && x.layer == l then x.index else -1
  }

  /** The perturbation that moves one scalar only. */
  function Axis(p: Params, x: Position): Params
    requires |p.weights| == |p.biases|
  {
    Params(seq(|p.weights|, l requires 0 <= l < |p.weights| =>
                 Matrix(p.weights[l].rows, p.weights[l].cols, Unit(|p.weights[l].data|, Slot(x, true, l)))),
           seq(|p.weights|, l requires 0 <= l < |p.weights| => Unit(|p.biases[l]|, Slot(x, false, l))))
  }

  lemma AddUnit(v: seq<real>, k: nat, t: real)
    requires k < |v|
    ensures Add(v, Unit(|v|, k), t) == Bump(v, k, v[k] + t)
  {
  }

  lemma AddNone(v: seq<real>, t: real)
    ensures Add(v, Unit(|v|, -1), t) == v
  {
  }

  lemma AxisLayer(p: Params, x: Position, t: real, l: nat)
    requires |p.weights| == |p.biases| && Exists(p, x) && l < |p.weights|
    ensures Shift(p, Axis(p, x), t).weights[l] == Nudged(p, x, t).weights[l]
    ensures Shift(p, Axis(p, x), t).biases[l] == Nudged(p, x, t).biases[l]
  {
    AddNone(p.weights[l].data, t);
    AddNone(p.biases[l], t);
    if l == x.layer {
      if x.weight {
        AddUnit(p.weights[l].data, x.index, t);
      } else {
        AddUnit(p.biases[l], x.index, t);
      }
    }
  }

  lemma AxisMoves(p: Params, x: Position, t: real)
    requires |p.weights| == |p.biases| && Exists(p, x)
    ensures Shift(p, Axis(p, x), t) == Nudged(p, x, t)
  {
    forall l: nat | l < |p.weights|
      ensures Shift(p, Axis(p, x), t).weights[l] == Nudged(p, x, t).weights[l]
      ensures Shift(p, Axis(p, x), t).biases[l] == Nudged(p, x, t).biases[l]
    {
      AxisLayer(p, x, t, l);
    }
    assert Shift(p, Axis(p, x), t).weights == Nudged(p, x, t).weights;
    assert Shift(p, Axis(p, x), t).biases == Nudged(p, x, t).biases;
  }

  lemma {:induction false} DotUnit(u: seq<real>, size: nat, k: int, n: nat)
    requires n <= size
    ensures Dot(u, Unit(size, k), n) == if 0 <= k < n then At(u, k) else 0.0
  {
    if n > 0 {
      DotUnit(u, size, k, n - 1);
    }
  }

  ghost predicate SameSizes(g: Params, p: Params, layers: seq<nat>) {
    Shaped(g, layers) && Shaped(p, layers)
  }

  lemma LayerPairingWithAxis(g: Params, p: Params, x: Position, layers: seq<nat>, l: nat)
    requires SameSizes(g, p, layers) && Exists(p, x) && Exists(g, x) && l < |p.weights|
    ensures LayerPairing(g, Axis(p, x), l) == if x.layer == l then Scalar(g, x) else 0.0
  {
    assert LayerShaped(g, layers, l) && LayerShaped(p, layers, l);
    DotUnit(g.weights[l].data, |p.weights[l].data|, Slot(x, true, l), |g.weights[l].data|);
    DotUnit(g.biases[l], |p.biases[l]|, Slot(x, false, l), |g.biases[l]|);
  }

  lemma {:induction false} PairingWithAxis(g: Params, p: Params, x: Position, layers: seq<nat>, n: nat)
    requires SameSizes(g, p, layers) && Exists(p, x) && Exists(g, x) && n <= |p.weights|
    ensures Sum(PairingTerm(g, Axis(p, x)), n) == if x.layer < n then Scalar(g, x) else 0.0
  {
    if n > 0 {
      PairingWithAxis(g, p, x, layers, n - 1);
      LayerPairingWithAxis(g, p, x, layers, n - 1);
    }
  }

  lemma AxisShaped(p: Params, x: Position, layers: seq<nat>)
    requires Shaped(p, layers)
    ensures Shaped(Axis(p, x), layers)
  {
    forall l: nat | l < |p.weights|
      ensures LayerShaped(Axis(p, x), layers, l)
    {
      assert LayerShaped(p, layers, l);
    }
  }

  function Largest(a: real, b: real): real {
    if a < b then b else a
  }

  function RelativeError(analytical: real, numerical: real): (r: real)
    ensures 0.0 <= r
    ensures r == 0.0 <==> analytical == numerical
  {
    var scale := Largest(Largest(0.000000000001, Abs(analytical)), Abs(numerical));
    Abs(analytical - numerical) / scale
  }

  /** Relative to the larger of the two: opposite values are as far apart as values can be. */
  lemma RelativeErrorScale(a: real)
    requires Abs(a) >= 0.000000000001
    ensures RelativeError(a, -a) == 2.0
  {
    var size := Abs(a);
    assert Abs(-a) == size && Abs(a - -a) == 2.0 * size;
    assert 2.0 * size / size == 2.0;
  }

  lemma RelativeErrorBound(a: real, b: real)
    ensures RelativeError(a, b) <= 2.0
  {
    var scale := Largest(Largest(0.000000000001, Abs(a)), Abs(b));
    AbsSum(a, -b);
    AtMostTwo(Abs(a - b), scale);
  }

  lemma AtMostTwo(x: real, scale: real)
    requires 0.0 < scale && x <= 2.0 * scale
    ensures x / scale <= 2.0
  {
    var q := x / scale;
    assert q * scale == x;
    assert (q - 2.0) * scale <= 0.0;
  }

  function Quotient(plus: real, minus: real, h: real): real
    requires h > 0.0
  {
    (plus - minus) / (2.0 * h)
  }

  /** The central difference that gradient_check computes for one scalar. */
  function Numerical(q: Squash, p: Params, x: Sample, at: Position, epsilon: real): real
    requires |p.weights| == |p.biases| && Exists(p, at) && epsilon > 0.0
  {
    Quotient(Loss(q, Nudged(p, at, epsilon), x.input, x.expected), Loss(q, Nudged(p, at, -epsilon), x.input,
      x.expected),
             epsilon)
  }

  /** A central difference quotient. */
  function Central(f: real -> real, h: real): real
    requires h > 0.0
  {
    Quotient(f(h), f(-h), h)
  }

  lemma CentralAt(up: real, down: real, base: real, slope: real, tolerance: real, h: real)
    requires h > 0.0 && Abs(up - base - slope * h) <= tolerance * h && Abs(down - base + slope * h) <= tolerance * h
    ensures Abs((up - down) / (2.0 * h) - slope) <= tolerance
  {
    var d := 2.0 * h;
    var quotient := (up - down) / d;
    assert quotient * d == up - down;
    var bend, room := slope * h, tolerance * h;
    assert slope * d == 2.0 * bend && tolerance * d == 2.0 * room;
    Cancelled(quotient, slope + tolerance, d, up - down, 2.0 * bend + 2.0 * room);
    Cancelled(slope - tolerance, quotient, d, 2.0 * bend - 2.0 * room, up - down);
  }

  lemma Cancelled(a: real, b: real, d: real, x: real, y: real)
    requires d > 0.0 && a * d == x && b * d == y && x <= y
    ensures a <= b
  {
    assert a > b ==> (a - b) * d > 0.0;
  }

  ghost predicate CentralNear(f: real -> real, slope: real, tolerance: real, h: real)
    requires h > 0.0
  {
    Abs(Central(f, h) - slope) <= tolerance
  }

  lemma CentralConverges(f: real -> real, slope: real, tolerance: real) returns (delta: real)
    requires Derivative(f, 0.0, slope) && tolerance > 0.0
    ensures delta > 0.0 && forall h: real :: 0.0 < h < delta ==> CentralNear(f, slope, tolerance, h)
  {
    delta := Radius(f, 0.0, slope, tolerance);
    forall h: real | 0.0 < h < delta
      ensures CentralNear(f, slope, tolerance, h)
    {
      assert Near(f, 0.0, slope, tolerance, h) && Near(f, 0.0, slope, tolerance, -h);
      assert 0.0 + h == h && 0.0 + -h == -h && slope * -h == -(slope * h);
      CentralAt(f(h), f(-h), f(0.0), slope, tolerance, h);
    }
  }

  ghost predicate NumericalNear(q: Squash, p: Params, x: Sample, at: Position, tolerance: real, epsilon: real)
    requires |p.weights| == |p.biases| && Exists(p, at) && epsilon > 0.0
  {
    && Exists(Gradient(q, p, x.input, x.expected), at)
    && Abs(Numerical(q, p, x, at, epsilon) - Scalar(Gradient(q, p, x.input, x.expected), at)) <= tolerance
  }

  lemma ExistsInShape(p: Params, g: Params, at: Position, layers: seq<nat>)
    requires Shaped(p, layers) && Shaped(g, layers) && Exists(p, at)
    ensures Exists(g, at)
  {
    assert LayerShaped(p, layers, at.layer) && LayerShaped(g, layers, at.layer);
  }

  lemma LossAlongAxis(q: Squash, p: Params, x: Sample, at: Position, t: real)
    requires |p.weights| == |p.biases| && Exists(p, at)
    ensures LossAlong(q, p, Axis(p, at), x.input, x.expected)(t) == Loss(q, Nudged(p, at, t), x.input, x.expected)
  {
    AxisMoves(p, at, t);
  }

  lemma NumericalIsCentral(q: Squash, p: Params, x: Sample, at: Position, epsilon: real)
    requires |p.weights| == |p.biases| && Exists(p, at) && epsilon > 0.0
    ensures Central(LossAlong(q, p, Axis(p, at), x.input, x.expected), epsilon) == Numerical(q, p, x, at, epsilon)
  {
    LossAlongAxis(q, p, x, at, epsilon);
    LossAlongAxis(q, p, x, at, -epsilon);
  }

  /** gradient_check is sound: for every scalar parameter the central difference tends to the entry that
      compute_gradients wrote for it. */
  lemma NumericalGradientConverges(q: Squash, p: Params, x: Sample, at: Position, layers: seq<nat>, tolerance: real)
    returns (delta: real)
    requires Shaped(p, layers) && Smooth(q) && |x.input| == layers[0] && Exists(p, at) && tolerance > 0.0
    ensures delta > 0.0
    ensures forall epsilon: real :: 0.0 < epsilon < delta ==> NumericalNear(q, p, x, at, tolerance, epsilon)
  {
    var g, d := Gradient(q, p, x.input, x.expected), Axis(p, at);
    GradientShaped(q, p, x.input, x.expected, layers);
    AxisShaped(p, at, layers);
    ExistsInShape(p, g, at, layers);
    GradientIsDerivative(q, p, d, x.input, x.expected, layers);
    PairingWithAxis(g, p, at, layers, |p.weights|);
    delta := CentralConverges(LossAlong(q, p, d, x.input, x.expected), Scalar(g, at), tolerance);
    forall epsilon: real | 0.0 < epsilon < delta
      ensures NumericalNear(q, p, x, at, tolerance, epsilon)
    {
      NumericalIsCentral(q, p, x, at, epsilon);
      assert CentralNear(LossAlong(q, p, d, x.input, x.expected), Scalar(g, at), tolerance, epsilon);
    }
  }
}
