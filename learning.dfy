/**
 * What `update_mini_batch` of network2.py computes, as functions of the
 * layer sizes and the parameters: the gradients added up over a mini-batch,
 * and the regularized step of the weights and biases.
 */
module Learning {
  import opened Outcomes
  import opened LinAlg
  import opened Utility
  import opened Costs
  import opened Propagation

  // ------------------------------------------------------------ accumulation

  /** [np.zeros_like(b) for b in biases], [np.zeros_like(w) for w in weights]. */
  function ZerosLikeParams(sizes: seq<nat>, p: Params): (z: Params)
    requires Shaped(sizes, p)
    ensures Shaped(sizes, z)
    ensures forall k, i :: 0 <= k < |z.biases| && 0 <= i < sizes[k + 1] ==> z.biases[k][i] == 0.0
    ensures forall k, i, j :: 0 <= k < |z.weights| && 0 <= i < sizes[k + 1] && 0 <= j < sizes[k] ==>
              z.weights[k][i][j] == 0.0
  {
    var z := Params(seq(|p.biases|, k requires 0 <= k < |p.biases| => Zeros(|p.biases[k]|)),
                    seq(|p.weights|, k requires 0 <= k < |p.weights| => ZerosLike(p.weights[k])));
    assert forall k :: 0 <= k < |p.biases| ==> IsMatrix(z.weights[k], sizes[k + 1], sizes[k]);
    z
  }

  /** [nb + dnb for nb, dnb in zip(...)] for both parameter lists. */
  function Plus(sizes: seq<nat>, g: Params, h: Params): (r: Params)
    requires Shaped(sizes, g) && Shaped(sizes, h)
    ensures Shaped(sizes, r)
    ensures forall k, i :: 0 <= k < |r.biases| && 0 <= i < sizes[k + 1] ==>
              r.biases[k][i] == g.biases[k][i] + h.biases[k][i]
    ensures forall k, i, j :: 0 <= k < |r.weights| && 0 <= i < sizes[k + 1] && 0 <= j < sizes[k] ==>
              r.weights[k][i][j] == g.weights[k][i][j] + h.weights[k][i][j]
  {
    var r := Params(seq(|g.biases|, k requires 0 <= k < |g.biases| =>
                      assert |g.biases[k]| == sizes[k + 1] == |h.biases[k]|;
                      Add(g.biases[k], h.biases[k])),
                    seq(|g.weights|, k requires 0 <= k < |g.weights| =>
                      assert IsMatrix(g.weights[k], sizes[k + 1], sizes[k]) && IsMatrix(h.weights[k], sizes[k + 1], sizes[k]);
                      MatAdd(g.weights[k], h.weights[k])));
    assert forall k :: 0 <= k < |g.biases| ==> IsMatrix(r.weights[k], sizes[k + 1], sizes[k]);
    r
  }

  /** Two parameter lists of one shape are equal when all their entries are. */
  lemma ParamsExt(sizes: seq<nat>, g: Params, h: Params)
    requires Shaped(sizes, g) && Shaped(sizes, h)
    requires forall k, i :: 0 <= k < |g.biases| && 0 <= i < sizes[k + 1] ==> g.biases[k][i] == h.biases[k][i]
    requires forall k, i, j :: 0 <= k < |g.weights| && 0 <= i < sizes[k + 1] && 0 <= j < sizes[k] ==>
               g.weights[k][i][j] == h.weights[k][i][j]
    ensures g == h
  {
    forall k | 0 <= k < |g.biases| ensures g.biases[k] == h.biases[k] && g.weights[k] == h.weights[k] {
      assert IsMatrix(g.weights[k], sizes[k + 1], sizes[k]) && IsMatrix(h.weights[k], sizes[k + 1], sizes[k]);
      forall i | 0 <= i < sizes[k + 1] ensures g.weights[k][i] == h.weights[k][i] {
      }
    }
  }

  lemma PlusAssociative(sizes: seq<nat>, f: Params, g: Params, h: Params)
    requires Shaped(sizes, f) && Shaped(sizes, g) && Shaped(sizes, h)
    ensures Plus(sizes, Plus(sizes, f, g), h) == Plus(sizes, f, Plus(sizes, g, h))
  {
    ParamsExt(sizes, Plus(sizes, Plus(sizes, f, g), h), Plus(sizes, f, Plus(sizes, g, h)));
  }

  lemma PlusZeros(sizes: seq<nat>, p: Params, g: Params)
    requires Shaped(sizes, p) && Shaped(sizes, g)
    ensures Plus(sizes, g, ZerosLikeParams(sizes, p)) == g
    ensures Plus(sizes, ZerosLikeParams(sizes, p), g) == g
  {
    ParamsExt(sizes, Plus(sizes, g, ZerosLikeParams(sizes, p)), g);
    ParamsExt(sizes, Plus(sizes, ZerosLikeParams(sizes, p), g), g);
  }

  /** The gradients `backprop` returns for one training example. */
  function ExampleGradients(cost: CostFunction, sigma: ActivationFn, sizes: seq<nat>, p: Params, e: Example): Result<Params>
    requires Shaped(sizes, p) && e.y.OneHot?
  {
    Gradients(cost, sigma, sizes, p, e.x, e.y.vector)
  }

  /**
   * nabla_b, nabla_w after the loop of `update_mini_batch` over `batch`:
   * zeros plus the example gradients in order, or the first example's error.
   */
  function BatchGradients(cost: CostFunction, sigma: ActivationFn, sizes: seq<nat>, p: Params, batch: seq<Example>): (r: Result<Params>)
    requires Shaped(sizes, p) && Represented(batch, true)
    ensures r.Ok? ==> Shaped(sizes, r.value)
    ensures r.Ok? <==> forall i :: 0 <= i < |batch| ==> ExampleGradients(cost, sigma, sizes, p, batch[i]).Ok?
    ensures r.Err? ==> r.error == ShapeMismatch || r.error == IndexOutOfRange
    decreases |batch|
  {
    if |batch| == 0 then Ok(ZerosLikeParams(sizes, p))
    else
      var init := batch[..|batch| - 1];
      assert forall i :: 0 <= i < |init| ==> init[i] == batch[i];
      match BatchGradients(cost, sigma, sizes, p, init)
      case Err(e) => Err(e)
      case Ok(acc) =>
        match ExampleGradients(cost, sigma, sizes, p, batch[|batch| - 1])
        case Err(e) => Err(e)
        case Ok(g) =>
          GradientsShaped(cost, sigma, sizes, p, batch[|batch| - 1].x, batch[|batch| - 1].y.vector);
          Ok(Plus(sizes, acc, g))
  }

  /** Once a prefix of the batch fails, the whole accumulation raises that error. */
  lemma {:induction false} BatchGradientsFirstError(cost: CostFunction, sigma: ActivationFn, sizes: seq<nat>, p: Params,
                                                    batch: seq<Example>, j: nat)
    requires Shaped(sizes, p) && Represented(batch, true) && j <= |batch|
    ensures Represented(batch[..j], true)
    ensures BatchGradients(cost, sigma, sizes, p, batch[..j]).Err? ==>
            BatchGradients(cost, sigma, sizes, p, batch) == BatchGradients(cost, sigma, sizes, p, batch[..j])
    decreases |batch|
  {
    assert forall i :: 0 <= i < j ==> batch[..j][i] == batch[i];
    if j < |batch| {
      var init := batch[..|batch| - 1];
      assert forall i :: 0 <= i < |init| ==> init[i] == batch[i];
      assert init[..j] == batch[..j];
      BatchGradientsFirstError(cost, sigma, sizes, p, init, j);
    } else {
      assert batch[..j] == batch;
    }
  }

  /** Adding up two accumulations, the first error winning. */
  function Combine(sizes: seq<nat>, r1: Result<Params>, r2: Result<Params>): Result<Params>
    requires r1.Ok? ==> Shaped(sizes, r1.value)
    requires r2.Ok? ==> Shaped(sizes, r2.value)
  {
    if r1.Err? then r1 else if r2.Err? then r2 else Ok(Plus(sizes, r1.value, r2.value))
  }

  /**
   * The accumulation is a sum: splitting a batch anywhere and adding the
   * two accumulations gives the accumulation of the whole batch, and an
   * error in either part is the error of the whole.
   */
  lemma {:induction false} BatchGradientsConcat(cost: CostFunction, sigma: ActivationFn, sizes: seq<nat>, p: Params,
                                                b1: seq<Example>, b2: seq<Example>)
    requires Shaped(sizes, p) && Represented(b1, true) && Represented(b2, true)
    ensures Represented(b1 + b2, true)
    ensures BatchGradients(cost, sigma, sizes, p, b1 + b2)
         == Combine(sizes, BatchGradients(cost, sigma, sizes, p, b1), BatchGradients(cost, sigma, sizes, p, b2))
    decreases |b2|
  {
    var b := b1 + b2;
    assert Represented(b, true) by {
      forall i | 0 <= i < |b| ensures b[i].y.OneHot? {
        if i < |b1| { assert b[i] == b1[i]; } else { assert b[i] == b2[i - |b1|]; }
      }
    }
    var r1 := BatchGradients(cost, sigma, sizes, p, b1);
    if |b2| == 0 {
      assert b == b1;
      if r1.Ok? {
        PlusZeros(sizes, p, r1.value);
      }
    } else {
      var init, e := b2[..|b2| - 1], b2[|b2| - 1];
      assert b[..|b| - 1] == b1 + init && b[|b| - 1] == e;
      assert Represented(init, true) by {
        forall i | 0 <= i < |init| ensures init[i].y.OneHot? { assert init[i] == b2[i]; }
      }
      BatchGradientsConcat(cost, sigma, sizes, p, b1, init);
      var r2' := BatchGradients(cost, sigma, sizes, p, init);
      if r1.Ok? && r2'.Ok? {
        var g := ExampleGradients(cost, sigma, sizes, p, e);
        if g.Ok? {
          GradientsShaped(cost, sigma, sizes, p, e.x, e.y.vector);
          PlusAssociative(sizes, r1.value, r2'.value, g.value);
        }
      }
    }
  }

  // ------------------------------------------------------------------ update

  /**
   * The update of `update_mini_batch` with rate eta, L2 coefficient lmbda,
   * training-set size n and batch length m:
   *   w' = (1 - eta*(lmbda/n)) * w - (eta/m) * nw,   b' = b - (eta/m) * nb.
   * With at least one layer, a zero n or m is a division by zero.
   */
  function Update(sizes: seq<nat>, p: Params, nabla: Params, eta: real, lmbda: real, n: nat, m: nat): (r: Result<Params>)
    requires Shaped(sizes, p) && Shaped(sizes, nabla)
    ensures r.Ok? <==> |p.weights| == 0 || (n > 0 && m > 0)
    ensures r.Err? ==> r.error == DivisionByZero
    ensures r.Ok? ==> Shaped(sizes, r.value)
    ensures r.Ok? && m > 0 ==>
      forall k, i :: 0 <= k < |p.biases| && 0 <= i < sizes[k + 1] ==>
        r.value.biases[k][i] == p.biases[k][i] - (eta / m as real) * nabla.biases[k][i]
    ensures r.Ok? && n > 0 && m > 0 ==>
      forall k, i, j :: 0 <= k < |p.weights| && 0 <= i < sizes[k + 1] && 0 <= j < sizes[k] ==>
        r.value.weights[k][i][j]
        == (1.0 - eta * (lmbda / n as real)) * p.weights[k][i][j] - (eta / m as real) * nabla.weights[k][i][j]
  {
    if |p.weights| == 0 then Ok(p)
    else if n == 0 || m == 0 then Err(DivisionByZero)
    else
      var decay := 1.0 - eta * (lmbda / n as real);
      var step := eta / m as real;
      var q := Params(seq(|p.biases|, k requires 0 <= k < |p.biases| =>
                        assert |p.biases[k]| == sizes[k + 1] == |nabla.biases[k]|;
                        Sub(p.biases[k], Scale(step, nabla.biases[k]))),
                      seq(|p.weights|, k requires 0 <= k < |p.weights| =>
                        assert IsMatrix(p.weights[k], sizes[k + 1], sizes[k]) && IsMatrix(nabla.weights[k], sizes[k + 1], sizes[k]);
                        MatSub(MatScale(decay, p.weights[k]), MatScale(step, nabla.weights[k]))));
      assert forall k :: 0 <= k < |p.weights| ==> IsMatrix(q.weights[k], sizes[k + 1], sizes[k]);
      Ok(q)
  }

  /** With eta = 0 the update leaves every weight and bias as it was, whatever lmbda is. */
  lemma UpdateAtZeroRate(sizes: seq<nat>, p: Params, nabla: Params, lmbda: real, n: nat, m: nat)
    requires Shaped(sizes, p) && Shaped(sizes, nabla)
    ensures Update(sizes, p, nabla, 0.0, lmbda, n, m).Ok? ==> Update(sizes, p, nabla, 0.0, lmbda, n, m).value == p
  {
    var r := Update(sizes, p, nabla, 0.0, lmbda, n, m);
    if r.Ok? && |p.weights| > 0 {
      ParamsExt(sizes, r.value, p);
    }
  }

  /**
   * One call of `update_mini_batch(batch, eta, lmbda, n)`: accumulate, then
   * update; an error leaves the parameters as they were.
   */
  function MiniBatchStep(cost: CostFunction, sigma: ActivationFn, sizes: seq<nat>, p: Params,
                         batch: seq<Example>, eta: real, lmbda: real, n: nat): (r: Result<Params>)
    requires Shaped(sizes, p) && Represented(batch, true)
    ensures r.Ok? ==> Shaped(sizes, r.value)
    ensures r.Ok? <==> (forall i :: 0 <= i < |batch| ==> ExampleGradients(cost, sigma, sizes, p, batch[i]).Ok?)
                       && (|p.weights| == 0 || (n > 0 && |batch| > 0))
    ensures r.Err? ==> r.error == ShapeMismatch || r.error == IndexOutOfRange || r.error == DivisionByZero
  {
    match BatchGradients(cost, sigma, sizes, p, batch)
    case Err(e) => Err(e)
    case Ok(nabla) => Update(sizes, p, nabla, eta, lmbda, n, |batch|)
  }

  lemma MiniBatchStepAtZeroRate(cost: CostFunction, sigma: ActivationFn, sizes: seq<nat>, p: Params,
                                batch: seq<Example>, lmbda: real, n: nat)
    requires Shaped(sizes, p) && Represented(batch, true)
    ensures MiniBatchStep(cost, sigma, sizes, p, batch, 0.0, lmbda, n).Ok? ==>
            MiniBatchStep(cost, sigma, sizes, p, batch, 0.0, lmbda, n).value == p
  {
    var g := BatchGradients(cost, sigma, sizes, p, batch);
    if g.Ok? {
      UpdateAtZeroRate(sizes, p, g.value, lmbda, n, |batch|);
    }
  }
}
