/**
 * The arithmetic of network2.py's Network, as functions of the layer sizes
 * and the parameters: the forward pass of `feedforward` and the backward
 * pass of `backprop`.  The class in network.dfy runs the loops of the
 * source and is proved to compute these.
 */
module Propagation {
  import opened Outcomes
  import opened LinAlg
  import opened Utility
  import opened Costs

  /**
   * One bias vector and one weight matrix per layer transition; the
   * gradients nabla_b, nabla_w have the same form.
   */
  datatype Params = Params(biases: seq<Vector>, weights: seq<Matrix>)

  /** A training target is a one-hot vector; a validation or test target a digit. */
  datatype Target = OneHot(vector: Vector) | Label(digit: int)

  datatype Example = Example(x: Vector, y: Target)

  /** The number of layer transitions `zip(sizes[:-1], sizes[1:])` yields. */
  function Transitions(sizes: seq<nat>): nat {
    if |sizes| == 0 then 0 else |sizes| - 1
  }

  /**
   * The shape invariant both initializers establish: biases[k] has
   * sizes[k+1] entries and weights[k] is sizes[k+1] x sizes[k].
   */
  predicate Shaped(sizes: seq<nat>, p: Params) {
    && |p.biases| == Transitions(sizes)
    && |p.weights| == Transitions(sizes)
    && forall k :: 0 <= k < |p.biases| ==>
         |p.biases[k]| == sizes[k + 1] && IsMatrix(p.weights[k], sizes[k + 1], sizes[k])
  }

  /** An input the first np.dot accepts (with no layers every input passes through). */
  predicate Fits(sizes: seq<nat>, x: Vector) {
    |sizes| < 2 || |x| == sizes[0]
  }

  /** Every target of `data` is a one-hot vector (convert) or a digit (not convert). */
  predicate Represented(data: seq<Example>, vectors: bool) {
    forall i :: 0 <= i < |data| ==> if vectors then data[i].y.OneHot? else data[i].y.Label?
  }

  /** Reordering a data set keeps the form of its targets. */
  lemma RepresentedPermutation(data: seq<Example>, shuffled: seq<Example>, vectors: bool)
    requires Represented(data, vectors) && multiset(shuffled) == multiset(data)
    ensures Represented(shuffled, vectors)
  {
    forall i | 0 <= i < |shuffled|
      ensures if vectors then shuffled[i].y.OneHot? else shuffled[i].y.Label?
    {
      assert shuffled[i] in multiset(data);
      var j :| 0 <= j < |data| && data[j] == shuffled[i];
    }
  }

  // ---------------------------------------------------------------- forward

  /** The activation after the first k layers, starting from the input x. */
  function Activation(sigma: ActivationFn, sizes: seq<nat>, p: Params, x: Vector, k: nat): (a: Vector)
    requires Shaped(sizes, p) && Fits(sizes, x) && k <= |p.biases|
    ensures |a| == if k == 0 then |x| else sizes[k]
    decreases k, 0
  {
    if k == 0 then x else Sigmoid(sigma, WeightedInput(sigma, sizes, p, x, k - 1))
  }

  /** z = np.dot(w, activation) + b for transition k. */
  function WeightedInput(sigma: ActivationFn, sizes: seq<nat>, p: Params, x: Vector, k: nat): (z: Vector)
    requires Shaped(sizes, p) && Fits(sizes, x) && k < |p.biases|
    ensures |z| == sizes[k + 1]
    decreases k, 1
  {
    assert |p.biases[k]| == sizes[k + 1] && IsMatrix(p.weights[k], sizes[k + 1], sizes[k]);
    Add(MatVec(p.weights[k], Activation(sigma, sizes, p, x, k)), p.biases[k])
  }

  /** The activations, input first, after each of the first k layers. */
  function Activations(sigma: ActivationFn, sizes: seq<nat>, p: Params, x: Vector, k: nat): (r: seq<Vector>)
    requires Shaped(sizes, p) && Fits(sizes, x) && k <= |p.biases|
    ensures |r| == k + 1 && forall i :: 0 <= i <= k ==> r[i] == Activation(sigma, sizes, p, x, i)
  {
    seq(k + 1, i requires 0 <= i <= k => Activation(sigma, sizes, p, x, i))
  }

  /** The weighted inputs z of each of the first k layers. */
  function WeightedInputs(sigma: ActivationFn, sizes: seq<nat>, p: Params, x: Vector, k: nat): (r: seq<Vector>)
    requires Shaped(sizes, p) && Fits(sizes, x) && k <= |p.biases|
    ensures |r| == k && forall i :: 0 <= i < k ==> r[i] == WeightedInput(sigma, sizes, p, x, i)
  {
    seq(k, i requires 0 <= i < k => WeightedInput(sigma, sizes, p, x, i))
  }

  /**
   * One more layer of the forward pass: z = np.dot(w, a) + b of the last
   * activation is appended to the zs, and sigmoid(z) to the activations.
   */
  lemma ForwardStep(sigma: ActivationFn, sizes: seq<nat>, p: Params, x: Vector, k: nat)
    requires Shaped(sizes, p) && Fits(sizes, x) && k < |p.biases|
    ensures |p.biases[k]| == sizes[k + 1] && IsMatrix(p.weights[k], sizes[k + 1], sizes[k])
    ensures |Activation(sigma, sizes, p, x, k)| == sizes[k]
    ensures var z := Add(MatVec(p.weights[k], Activation(sigma, sizes, p, x, k)), p.biases[k]);
      && WeightedInputs(sigma, sizes, p, x, k + 1) == WeightedInputs(sigma, sizes, p, x, k) + [z]
      && Activations(sigma, sizes, p, x, k + 1) == Activations(sigma, sizes, p, x, k) + [Sigmoid(sigma, z)]
  {
    assert |p.biases[k]| == sizes[k + 1] && IsMatrix(p.weights[k], sizes[k + 1], sizes[k]);
    assert Activations(sigma, sizes, p, x, k + 1) == Activations(sigma, sizes, p, x, k) + [Activation(sigma, sizes, p, x, k + 1)];
    assert WeightedInputs(sigma, sizes, p, x, k + 1) == WeightedInputs(sigma, sizes, p, x, k) + [WeightedInput(sigma, sizes, p, x, k)];
  }

  /** What `feedforward` returns: the last activation, or numpy's shape error. */
  function Output(sigma: ActivationFn, sizes: seq<nat>, p: Params, x: Vector): (r: Result<Vector>)
    requires Shaped(sizes, p)
    ensures r.Ok? <==> Fits(sizes, x)
    ensures r.Err? ==> r.error == ShapeMismatch
    ensures r.Ok? && |sizes| >= 2 ==> |r.value| == sizes[|sizes| - 1]
  {
    if Fits(sizes, x) then Ok(Activation(sigma, sizes, p, x, |p.biases|)) else Err(ShapeMismatch)
  }

  /** The network made of the layers from transition j on. */
  function DropLayers(p: Params, j: nat): Params
    requires j <= |p.biases| && j <= |p.weights|
  {
    Params(p.biases[j..], p.weights[j..])
  }

  /**
   * The layers are applied in order: running the first j layers and then
   * the network of the remaining layers on that activation is the same as
   * running the first k layers.
   */
  lemma ActivationSplits(sigma: ActivationFn, sizes: seq<nat>, p: Params, x: Vector, j: nat, k: nat)
    requires Shaped(sizes, p) && Fits(sizes, x) && j <= k <= |p.biases|
    ensures j <= |sizes| && Shaped(sizes[j..], DropLayers(p, j))
    ensures Fits(sizes[j..], Activation(sigma, sizes, p, x, j))
    ensures Activation(sigma, sizes[j..], DropLayers(p, j), Activation(sigma, sizes, p, x, j), k - j)
         == Activation(sigma, sizes, p, x, k)
  {
    DropShaped(sizes, p, j);
    var q := DropLayers(p, j);
    assert Fits(sizes[j..], Activation(sigma, sizes, p, x, j));
    assert forall m :: 0 <= m < |q.biases| ==> q.biases[m] == p.biases[j + m] && q.weights[m] == p.weights[j + m];
    ShiftedActivation(sigma, sizes, p, x, sizes[j..], q, j, k - j);
  }

  /**
   * The induction of ActivationSplits, on the number n of layers after the
   * first j: a network q whose layers are those of p from transition j on
   * takes the activation after j layers of p to the activation after j + n.
   */
  lemma {:induction false} ShiftedActivation(sigma: ActivationFn, sizes: seq<nat>, p: Params, x: Vector,
                                             s: seq<nat>, q: Params, j: nat, n: nat)
    requires Shaped(sizes, p) && Fits(sizes, x) && j + n <= |p.biases|
    requires Shaped(s, q) && Fits(s, Activation(sigma, sizes, p, x, j)) && n <= |q.biases| <= |p.biases| - j
    requires forall m :: 0 <= m < |q.biases| ==> q.biases[m] == p.biases[j + m] && q.weights[m] == p.weights[j + m]
    ensures Activation(sigma, s, q, Activation(sigma, sizes, p, x, j), n) == Activation(sigma, sizes, p, x, j + n)
    decreases n
  {
    if n > 0 {
      ShiftedActivation(sigma, sizes, p, x, s, q, j, n - 1);
      ShiftedLayer(sigma, sizes, p, x, s, q, j, n);
    }
  }

  /**
   * Layer n - 1 of q is layer j + n - 1 of p, so when the two networks agree
   * on the activation entering it they agree on the activation leaving it.
   */
  lemma ShiftedLayer(sigma: ActivationFn, sizes: seq<nat>, p: Params, x: Vector,
                     s: seq<nat>, q: Params, j: nat, n: nat)
    requires Shaped(sizes, p) && Fits(sizes, x) && 0 < n && j + n <= |p.biases|
    requires Shaped(s, q) && Fits(s, Activation(sigma, sizes, p, x, j)) && n <= |q.biases| <= |p.biases| - j
    requires q.biases[n - 1] == p.biases[j + n - 1] && q.weights[n - 1] == p.weights[j + n - 1]
    requires Activation(sigma, s, q, Activation(sigma, sizes, p, x, j), n - 1) == Activation(sigma, sizes, p, x, j + n - 1)
    ensures Activation(sigma, s, q, Activation(sigma, sizes, p, x, j), n) == Activation(sigma, sizes, p, x, j + n)
  {
    var a := Activation(sigma, sizes, p, x, j);
    assert WeightedInput(sigma, s, q, a, n - 1) == WeightedInput(sigma, sizes, p, x, j + n - 1);
  }

  /** The layers from transition j on form a network of the remaining sizes. */
  lemma DropShaped(sizes: seq<nat>, p: Params, j: nat)
    requires Shaped(sizes, p) && j <= |p.biases|
    ensures j <= |sizes| && Shaped(sizes[j..], DropLayers(p, j))
  {
    var s, q := sizes[j..], DropLayers(p, j);
    forall m | 0 <= m < |q.biases|
      ensures |q.biases[m]| == s[m + 1] && IsMatrix(q.weights[m], s[m + 1], s[m])
    {
      assert q.biases[m] == p.biases[j + m] && q.weights[m] == p.weights[j + m];
    }
  }

  // --------------------------------------------------------------- backward

  /** delta at the output layer: the cost's delta(zs[-1], activations[-1], y). */
  function OutputDelta(cost: CostFunction, sigma: ActivationFn, sizes: seq<nat>, p: Params, x: Vector, y: Vector): (d: Vector)
    requires Shaped(sizes, p) && Fits(sizes, x) && |p.biases| > 0 && |y| == sizes[|sizes| - 1]
    ensures |d| == sizes[|sizes| - 1]
  {
    var last := |p.biases| - 1;
    Delta(cost, sigma, WeightedInput(sigma, sizes, p, x, last), Activation(sigma, sizes, p, x, last + 1), y)
  }

  /**
   * delta for transition k: the output delta at the last transition, and
   * (w[k+1].T . delta[k+1]) * sigmoid_prime(z[k]) below it.
   */
  function LayerDelta(cost: CostFunction, sigma: ActivationFn, sizes: seq<nat>, p: Params, x: Vector, y: Vector, k: nat): (d: Vector)
    requires Shaped(sizes, p) && Fits(sizes, x) && k < |p.biases| && |y| == sizes[|sizes| - 1]
    ensures |d| == sizes[k + 1]
    decreases |p.biases| - k
  {
    if k == |p.biases| - 1 then OutputDelta(cost, sigma, sizes, p, x, y)
    else
      var next := LayerDelta(cost, sigma, sizes, p, x, y, k + 1);
      Hadamard(MatVec(Transpose(p.weights[k + 1], sizes[k + 1]), next),
               SigmoidPrime(sigma, WeightedInput(sigma, sizes, p, x, k)))
  }

  /**
   * What `backprop(x, y)` returns: nabla_b[k] is the delta of transition k
   * and nabla_w[k] its outer product with the activation feeding that
   * transition.  It fails when x does not fit the first layer, when there is
   * no layer (zs[-1]) and when y does not match the output (a - y).
   */
  function Gradients(cost: CostFunction, sigma: ActivationFn, sizes: seq<nat>, p: Params, x: Vector, y: Vector): (r: Result<Params>)
    requires Shaped(sizes, p)
    ensures r.Ok? <==> Fits(sizes, x) && |p.biases| > 0 && |y| == sizes[|sizes| - 1]
    ensures !Fits(sizes, x) ==> r == Err(ShapeMismatch)
    ensures Fits(sizes, x) && |p.biases| == 0 ==> r == Err(IndexOutOfRange)
    ensures r.Err? ==> r.error == ShapeMismatch || r.error == IndexOutOfRange
  {
    if !Fits(sizes, x) then Err(ShapeMismatch)
    else if |p.biases| == 0 then Err(IndexOutOfRange)
    else if |y| != sizes[|sizes| - 1] then Err(ShapeMismatch)
    else
      var L := |p.biases|;
      Ok(Params(seq(L, k requires 0 <= k < L => LayerDelta(cost, sigma, sizes, p, x, y, k)),
                seq(L, k requires 0 <= k < L =>
                  Outer(LayerDelta(cost, sigma, sizes, p, x, y, k), Activation(sigma, sizes, p, x, k)))))
  }

  /** nabla_b and nabla_w have exactly the shapes of the biases and weights. */
  lemma GradientsShaped(cost: CostFunction, sigma: ActivationFn, sizes: seq<nat>, p: Params, x: Vector, y: Vector)
    requires Shaped(sizes, p) && Gradients(cost, sigma, sizes, p, x, y).Ok?
    ensures Shaped(sizes, Gradients(cost, sigma, sizes, p, x, y).value)
  {
    var g := Gradients(cost, sigma, sizes, p, x, y).value;
    forall k | 0 <= k < |g.biases|
      ensures |g.biases[k]| == sizes[k + 1] && IsMatrix(g.weights[k], sizes[k + 1], sizes[k])
    {
      var a := Activation(sigma, sizes, p, x, k);
      assert |a| == sizes[k];
    }
  }

  /**
   * The output layer: nabla_b[-1] is the cost's delta at zs[-1] and
   * activations[-1], and nabla_w[-1] its outer product with activations[-2].
   */
  lemma GradientsOutputLayer(cost: CostFunction, sigma: ActivationFn, sizes: seq<nat>, p: Params, x: Vector, y: Vector, g: Params)
    requires Shaped(sizes, p) && Gradients(cost, sigma, sizes, p, x, y) == Ok(g)
    ensures |p.biases| > 0 && Shaped(sizes, g)
    ensures var L := |p.biases|;
      && g.biases[L - 1] == Delta(cost, sigma, WeightedInput(sigma, sizes, p, x, L - 1), Activation(sigma, sizes, p, x, L), y)
      && g.weights[L - 1] == Outer(g.biases[L - 1], Activation(sigma, sizes, p, x, L - 1))
  {
    GradientsShaped(cost, sigma, sizes, p, x, y);
    GradientsAt(cost, sigma, sizes, p, x, y, g, |p.biases| - 1);
  }

  /**
   * The chain rule below the output: for every earlier transition k,
   * nabla_b[k] = (w[k+1].T . nabla_b[k+1]) * sigmoid_prime(z[k]) and
   * nabla_w[k] = nabla_b[k] . activations[k].T.
   */
  lemma GradientsChainRule(cost: CostFunction, sigma: ActivationFn, sizes: seq<nat>, p: Params, x: Vector, y: Vector, g: Params, k: nat)
    requires Shaped(sizes, p) && Gradients(cost, sigma, sizes, p, x, y) == Ok(g)
    requires k + 1 < |p.biases|
    ensures Shaped(sizes, g) && IsMatrix(p.weights[k + 1], sizes[k + 2], sizes[k + 1])
    ensures g.biases[k] == Hadamard(MatVec(Transpose(p.weights[k + 1], sizes[k + 1]), g.biases[k + 1]),
                                    SigmoidPrime(sigma, WeightedInput(sigma, sizes, p, x, k)))
    ensures g.weights[k] == Outer(g.biases[k], Activation(sigma, sizes, p, x, k))
  {
    GradientsShaped(cost, sigma, sizes, p, x, y);
    GradientsBiasRule(cost, sigma, sizes, p, x, y, g, k);
    GradientsWeightRule(cost, sigma, sizes, p, x, y, g, k);
  }

  /** nabla_b[k] = (w[k+1].T . nabla_b[k+1]) * sigmoid_prime(z[k]) for every transition below the last. */
  lemma GradientsBiasRule(cost: CostFunction, sigma: ActivationFn, sizes: seq<nat>, p: Params, x: Vector, y: Vector, g: Params, k: nat)
    requires Shaped(sizes, p) && Gradients(cost, sigma, sizes, p, x, y) == Ok(g)
    requires k + 1 < |p.biases|
    ensures IsMatrix(p.weights[k + 1], sizes[k + 2], sizes[k + 1]) && k + 1 < |g.biases|
    ensures g.biases[k] == Hadamard(MatVec(Transpose(p.weights[k + 1], sizes[k + 1]), g.biases[k + 1]),
                                    SigmoidPrime(sigma, WeightedInput(sigma, sizes, p, x, k)))
  {
    GradientsAt(cost, sigma, sizes, p, x, y, g, k + 1);
    GradientsAt(cost, sigma, sizes, p, x, y, g, k);
    LayerDeltaStep(cost, sigma, sizes, p, x, y, k);
  }

  /** nabla_w[k] = nabla_b[k] . activations[k].T for every transition. */
  lemma GradientsWeightRule(cost: CostFunction, sigma: ActivationFn, sizes: seq<nat>, p: Params, x: Vector, y: Vector, g: Params, k: nat)
    requires Shaped(sizes, p) && Gradients(cost, sigma, sizes, p, x, y) == Ok(g)
    requires k < |p.biases|
    ensures Fits(sizes, x) && k < |g.biases| && k < |g.weights|
    ensures g.weights[k] == Outer(g.biases[k], Activation(sigma, sizes, p, x, k))
  {
    GradientsAt(cost, sigma, sizes, p, x, y, g, k);
  }

  /** Below the output, the delta of transition k is computed from the delta of transition k + 1. */
  lemma LayerDeltaStep(cost: CostFunction, sigma: ActivationFn, sizes: seq<nat>, p: Params, x: Vector, y: Vector, k: nat)
    requires Shaped(sizes, p) && Fits(sizes, x) && k + 1 < |p.biases| && |y| == sizes[|sizes| - 1]
    ensures IsMatrix(p.weights[k + 1], sizes[k + 2], sizes[k + 1])
    ensures LayerDelta(cost, sigma, sizes, p, x, y, k)
         == Hadamard(MatVec(Transpose(p.weights[k + 1], sizes[k + 1]), LayerDelta(cost, sigma, sizes, p, x, y, k + 1)),
                     SigmoidPrime(sigma, WeightedInput(sigma, sizes, p, x, k)))
  {
    assert IsMatrix(p.weights[k + 1], sizes[k + 2], sizes[k + 1]);
  }

  /** Transition k of the gradients: its delta, and the delta's outer product with the activation feeding it. */
  lemma GradientsAt(cost: CostFunction, sigma: ActivationFn, sizes: seq<nat>, p: Params, x: Vector, y: Vector, g: Params, k: nat)
    requires Shaped(sizes, p) && Gradients(cost, sigma, sizes, p, x, y) == Ok(g) && k < |p.biases|
    ensures Fits(sizes, x) && |y| == sizes[|sizes| - 1] && k < |g.biases| && k < |g.weights|
    ensures g.biases[k] == LayerDelta(cost, sigma, sizes, p, x, y, k)
    ensures g.weights[k] == Outer(LayerDelta(cost, sigma, sizes, p, x, y, k), Activation(sigma, sizes, p, x, k))
  {
  }
}
