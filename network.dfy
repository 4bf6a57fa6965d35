/**
 * network2.py's `Network`: an object whose fields the initializers and
 * `update_mini_batch` rebind, with the loops of `feedforward`, `backprop`,
 * `update_mini_batch`, `total_cost` and `SGD` written as loops and each
 * proved to compute the function of the Propagation, Learning, Evaluation
 * and Training modules that states what it means.
 */
module Network2 {
  import opened Outcomes
  import opened LinAlg
  import opened Utility
  import opened Costs
  import opened Propagation
  import opened Learning
  import opened Evaluation
  import opened Batching
  import opened Training

  class Network {
    var numLayers: nat
    var sizes: seq<nat>
    var biases: seq<Vector>
    var weights: seq<Matrix>
    var cost: CostFunction

    /** num_layers is len(sizes), and the parameters have the shapes sizes gives them. */
    ghost predicate Valid()
      reads this
    {
      numLayers == |sizes| && Shaped(sizes, Params(biases, weights))
    }

    function Parameters(): Params
      reads this
    {
      Params(biases, weights)
    }

    /** `Network(sizes, cost=CrossEntropyCost)`: record the sizes, draw the parameters, keep the cost. */
    constructor (sizes: seq<nat>, cost: CostFunction := CrossEntropyCost)
      ensures Valid()
      ensures this.sizes == sizes && numLayers == |sizes| && this.cost == cost
    {
      numLayers := |sizes|;
      this.sizes := sizes;
      new;
      DefaultWeightInitializer();
      this.cost := cost;
    }

    /**
     * `default_weight_initializer`: Gaussian biases and weights, one per layer
     * transition.  The values are random, so they are any values of the right
     * shapes.
     */
    method DefaultWeightInitializer()
      requires numLayers == |sizes|
      modifies this
      ensures Valid()
      ensures sizes == old(sizes) && numLayers == old(numLayers) && cost == old(cost)
    {
      var q := DrawParameters(sizes);
      biases, weights := q.biases, q.weights;
    }

    /** `large_weight_initializer`: the same shapes, without the 1/sqrt(x) scaling. */
    method LargeWeightInitializer()
      requires numLayers == |sizes|
      modifies this
      ensures Valid()
      ensures sizes == old(sizes) && numLayers == old(numLayers) && cost == old(cost)
    {
      var q := DrawParameters(sizes);
      biases, weights := q.biases, q.weights;
    }

    /** `feedforward(a)`: apply the layers in order; np.dot raises on a misfit input. */
    method Feedforward(sigma: ActivationFn, x: Vector) returns (r: Result<Vector>)
      requires Valid()
      ensures r == Output(sigma, sizes, Parameters(), x)
    {
      var a := x;
      var k := 0;
      while k < |biases|
        invariant 0 <= k <= |biases|
        invariant k == 0 ==> a == x
        invariant k > 0 ==> Fits(sizes, x) && a == Activation(sigma, sizes, Parameters(), x, k)
      {
        if |a| != sizes[k] {
          return Err(ShapeMismatch);
        }
        assert |biases[k]| == sizes[k + 1] && IsMatrix(weights[k], sizes[k + 1], sizes[k]);
        a := Sigmoid(sigma, Add(MatVec(weights[k], a), biases[k]));
        k := k + 1;
      }
      return Ok(a);
    }

    /**
     * `backprop(x, y)`: a forward pass that records every z and activation,
     * then the backward pass, which writes the gradients through the
     * negative indices -l, -l+1 and -l-1 of the source.  It reads the
     * network and changes nothing.
     */
    method Backprop(sigma: ActivationFn, x: Vector, y: Vector) returns (r: Result<Params>)
      requires Valid()
      ensures r == Gradients(cost, sigma, sizes, Parameters(), x, y)
    {
      var zero := ZerosLikeParams(sizes, Parameters());
      var nablaB, nablaW := zero.biases, zero.weights;
      var failure, zs, activations := ForwardPass(sigma, x);
      if failure.Some? {
        return Err(failure.value);
      }
      if |biases| == 0 {
        return Err(IndexOutOfRange);
      }
      if |activations[PyIndex(|activations|, -1)]| != |y| {
        return Err(ShapeMismatch);
      }
      ghost var p := Parameters();
      ghost var g := Gradients(cost, sigma, sizes, p, x, y).value;
      GradientsOutputLayer(cost, sigma, sizes, p, x, y, g);
      forall k | 0 <= k < |biases| - 1 ensures Backpropagates(sigma, g, zs, activations, k) {
        GradientsChainRule(cost, sigma, sizes, p, x, y, g, k);
      }
      nablaB, nablaW := BackwardPass(sigma, y, zs, activations, nablaB, nablaW, g);
      r := Ok(Params(nablaB, nablaW));
    }

    /**
     * The first loop of `backprop`: z = np.dot(w, activation) + b and its
     * sigmoid for every layer, each appended to zs and activations; np.dot
     * raises when x does not fit the first layer.
     */
    method ForwardPass(sigma: ActivationFn, x: Vector) returns (failure: Option<Error>, zs: seq<Vector>, activations: seq<Vector>)
      requires Valid()
      ensures failure.None? <==> Fits(sizes, x)
      ensures failure.Some? ==> failure == Some(ShapeMismatch)
      ensures failure.None? ==> zs == WeightedInputs(sigma, sizes, Parameters(), x, |biases|)
      ensures failure.None? ==> activations == Activations(sigma, sizes, Parameters(), x, |biases|)
    {
      ghost var p := Parameters();
      var L := |biases|;
      var activation := x;
      activations := [x];
      zs := [];
      var k := 0;
      while k < L
        invariant 0 <= k <= L
        invariant k == 0 ==> activation == x && activations == [x] && zs == []
        invariant k > 0 ==> Fits(sizes, x)
        invariant Fits(sizes, x) ==> activation == Activation(sigma, sizes, p, x, k)
        invariant Fits(sizes, x) ==> activations == Activations(sigma, sizes, p, x, k)
        invariant Fits(sizes, x) ==> zs == WeightedInputs(sigma, sizes, p, x, k)
      {
        if |activation| != sizes[k] {
          return Some(ShapeMismatch), zs, activations;
        }
        assert Fits(sizes, x);
        ForwardStep(sigma, sizes, p, x, k);
        var z := Add(MatVec(weights[k], activation), biases[k]);
        zs := zs + [z];
        activation := Sigmoid(sigma, z);
        activations := activations + [activation];
        k := k + 1;
      }
      if L == 0 {
        assert Fits(sizes, x);
      }
      failure := None;
    }

    /**
     * nabla_b[k], nabla_w[k] of g satisfy the recurrence of the backward
     * pass at transition k, given the recorded zs and activations.
     */
    ghost predicate Backpropagates(sigma: ActivationFn, g: Params, zs: seq<Vector>, activations: seq<Vector>, k: nat)
      reads this
      requires Valid() && Shaped(sizes, g) && k + 1 < |biases| && |zs| == |biases| && |activations| == |biases| + 1
    {
      && IsMatrix(weights[k + 1], sizes[k + 2], sizes[k + 1])
      && |zs[k]| == sizes[k + 1]
      && g.biases[k] == Hadamard(MatVec(Transpose(weights[k + 1], sizes[k + 1]), g.biases[k + 1]), SigmoidPrime(sigma, zs[k]))
      && g.weights[k] == Outer(g.biases[k], activations[k])
    }

    /**
     * The loop `for l in xrange(2, self.num_layers)` of `backprop`, after the
     * output layer: it fills nabla_b[-l], nabla_w[-l] from delta, moving
     * from the output towards the input.
     */
    method BackwardPass(sigma: ActivationFn, y: Vector, zs: seq<Vector>, activations: seq<Vector>,
                        nablaB0: seq<Vector>, nablaW0: seq<Matrix>, ghost g: Params)
      returns (nablaB: seq<Vector>, nablaW: seq<Matrix>)
      requires Valid() && |biases| > 0 && Shaped(sizes, g)
      requires |zs| == |biases| && |activations| == |biases| + 1 && |nablaB0| == |biases| && |nablaW0| == |biases|
      requires |activations[|biases|]| == |y| == sizes[|sizes| - 1]
      requires cost == QuadraticCost ==> |zs[|biases| - 1]| == |y|
      requires g.biases[|biases| - 1] == Delta(cost, sigma, zs[|biases| - 1], activations[|biases|], y)
      requires g.weights[|biases| - 1] == Outer(g.biases[|biases| - 1], activations[|biases| - 1])
      requires forall k :: 0 <= k < |biases| - 1 ==> Backpropagates(sigma, g, zs, activations, k)
      ensures nablaB == g.biases && nablaW == g.weights
    {
      var L := |biases|;
      var delta := Delta(cost, sigma, zs[PyIndex(|zs|, -1)], activations[PyIndex(|activations|, -1)], y);
      nablaB := nablaB0[PyIndex(L, -1) := delta];
      nablaW := nablaW0[PyIndex(L, -1) := Outer(delta, activations[PyIndex(|activations|, -2)])];
      var l := 2;
      while l < numLayers
        invariant 2 <= l <= numLayers == L + 1
        invariant |nablaB| == L && |nablaW| == L
        invariant delta == g.biases[L - l + 1]
        invariant forall i :: L - l + 1 <= i < L ==> nablaB[i] == g.biases[i] && nablaW[i] == g.weights[i]
      {
        assert Backpropagates(sigma, g, zs, activations, L - l);
        var z := zs[PyIndex(|zs|, -l)];
        var sp := SigmoidPrime(sigma, z);
        var w := weights[PyIndex(L, -l + 1)];
        delta := Hadamard(MatVec(Transpose(w, sizes[L - l + 1]), delta), sp);
        nablaB := nablaB[PyIndex(L, -l) := delta];
        nablaW := nablaW[PyIndex(L, -l) := Outer(delta, activations[PyIndex(|activations|, -l - 1)])];
        l := l + 1;
      }
      assert nablaB == g.biases && nablaW == g.weights;
    }

    /**
     * `update_mini_batch(mini_batch, eta, lmbda, n)`: add up the gradients
     * of `backprop` over the batch, then rebind the weights and biases.  An
     * exception on the way leaves the network as it was.
     */
    method UpdateMiniBatch(sigma: ActivationFn, miniBatch: seq<Example>, eta: real, lmbda: real, n: nat)
      returns (failure: Option<Error>)
      requires Valid() && Represented(miniBatch, true)
      modifies this
      ensures Valid()
      ensures sizes == old(sizes) && numLayers == old(numLayers) && cost == old(cost)
      ensures var step := MiniBatchStep(cost, sigma, sizes, old(Parameters()), miniBatch, eta, lmbda, n);
        && (step.Ok? ==> failure == None && Parameters() == step.value)
        && (step.Err? ==> failure == Some(step.error) && Parameters() == old(Parameters()))
    {
      var p := Parameters();
      var nabla := ZerosLikeParams(sizes, p);
      var i := 0;
      while i < |miniBatch|
        invariant 0 <= i <= |miniBatch|
        invariant unchanged(this)
        invariant Represented(miniBatch[..i], true)
        invariant BatchGradients(cost, sigma, sizes, p, miniBatch[..i]) == Ok(nabla)
      {
        var e := miniBatch[i];
        assert miniBatch[..i + 1][..i] == miniBatch[..i] && miniBatch[..i + 1][i] == e;
        var delta := Backprop(sigma, e.x, e.y.vector);
        if delta.Err? {
          BatchGradientsFirstError(cost, sigma, sizes, p, miniBatch, i + 1);
          return Some(delta.error);
        }
        GradientsShaped(cost, sigma, sizes, p, e.x, e.y.vector);
        nabla := Plus(sizes, nabla, delta.value);
        i := i + 1;
      }
      assert miniBatch[..i] == miniBatch;
      var q := Update(sizes, p, nabla, eta, lmbda, n, |miniBatch|);
      if q.Err? {
        return Some(q.error);
      }
      biases, weights := q.value.biases, q.value.weights;
      failure := None;
    }

    /**
     * `accuracy(data, convert)`: feed each input forward, compare the index
     * of the largest output with the expected digit, and count the matches.
     */
    method Accuracy(sigma: ActivationFn, data: seq<Example>, convert: bool := false) returns (r: Result<nat>)
      requires Valid() && Represented(data, convert)
      ensures r == AccuracyOf(sigma, sizes, Parameters(), data, convert)
    {
      ghost var p := Parameters();
      var count := 0;
      var i := 0;
      while i < |data|
        invariant 0 <= i <= |data|
        invariant Represented(data[..i], convert)
        invariant AccuracyOf(sigma, sizes, p, data[..i], convert) == Ok(count)
      {
        var hit := Classify(sigma, data[i], convert);
        AccuracyStep(sigma, sizes, p, data, convert, i);
        if hit.Err? {
          assert AccuracyOf(sigma, sizes, p, data[..i + 1], convert) == Err(hit.error);
          AccuracyFirstError(sigma, sizes, p, data, convert, i + 1);
          return Err(hit.error);
        }
        if hit.value {
          count := count + 1;
        }
        i := i + 1;
      }
      assert data[..i] == data;
      r := Ok(count);
    }

    /**
     * One entry of the results of `accuracy`: np.argmax of the output, and
     * whether it is the expected digit (np.argmax(y) with `convert`).
     */
    method Classify(sigma: ActivationFn, e: Example, convert: bool) returns (hit: Result<bool>)
      requires Valid() && (if convert then e.y.OneHot? else e.y.Label?)
      ensures hit == Hit(sigma, sizes, Parameters(), e)
    {
      var a := Feedforward(sigma, e.x);
      if a.Err? {
        return Err(a.error);
      }
      if |a.value| == 0 {
        return Err(EmptyArgmax);
      }
      var predicted := Argmax(a.value);
      if convert {
        hit := if |e.y.vector| == 0 then Err(EmptyArgmax) else Ok(predicted == Argmax(e.y.vector));
      } else {
        hit := Ok(predicted == e.y.digit);
      }
    }

    /**
     * `total_cost(data, lmbda, convert)`: the loss of every example divided
     * by len(data), then the L2 term; an empty data set fails at lmbda/len(data).
     */
    method TotalCost(ln: Logarithm, sigma: ActivationFn, data: seq<Example>, lmbda: real, convert: bool := false)
      returns (r: Result<real>)
      requires Valid() && Represented(data, !convert)
      ensures r == TotalCostOf(cost, ln, sigma, sizes, Parameters(), data, lmbda, convert)
    {
      ghost var p := Parameters();
      if |data| == 0 {
        // the loop adds nothing, and lmbda / len(data) raises
        return Err(DivisionByZero);
      }
      ghost var losses := LossResults(cost, ln, sigma, sizes, p, data, convert);
      var sum := DataCost(ln, sigma, data, convert, losses);
      if sum.Err? {
        TotalCostOfError(cost, ln, sigma, sizes, p, data, lmbda, convert, sum.error);
        return Err(sum.error);
      }
      TotalCostOfSum(cost, ln, sigma, sizes, p, data, lmbda, convert, sum.value);
      r := Ok(sum.value + L2Term(lmbda, |data|, Parameters()));
    }

    /**
     * The loop of `total_cost`: the loss of each example divided by
     * len(data) is added to the running cost, until a loss raises.
     */
    method DataCost(ln: Logarithm, sigma: ActivationFn, data: seq<Example>, convert: bool, ghost losses: seq<Result<real>>)
      returns (r: Result<real>)
      requires Valid() && Represented(data, !convert) && |data| > 0
      requires |losses| == |data|
      requires forall i {:trigger ExampleLoss(cost, ln, sigma, sizes, Parameters(), data[i], convert)} :: 0 <= i < |data| ==>
                 losses[i] == ExampleLoss(cost, ln, sigma, sizes, Parameters(), data[i], convert)
      ensures r == AddUp(LossResults(cost, ln, sigma, sizes, Parameters(), data, convert), |data|)
    {
      var c := 0.0;
      var i := 0;
      assert losses[..0] == [];
      while i < |data|
        invariant 0 <= i <= |data|
        invariant AddUp(losses[..i], |data|) == Ok(c)
      {
        AddUpStep(losses, |data|, i);
        var loss := ExampleCost(ln, sigma, data[i], convert);
        assert loss == losses[i];
        if loss.Err? {
          AddUpFirstError(losses, |data|, i + 1);
          LossResultsPointwise(cost, ln, sigma, sizes, Parameters(), data, convert, losses);
          return Err(loss.error);
        }
        c := c + loss.value / |data| as real;
        i := i + 1;
      }
      assert losses[..i] == losses;
      LossResultsPointwise(cost, ln, sigma, sizes, Parameters(), data, convert, losses);
      r := Ok(c);
    }

    /**
     * `SGD(training_data, epochs, mini_batch_size, eta, lmbda, evaluation_data,
     * monitor_*)`: each epoch shuffles the caller's training data in place,
     * trains on its mini-batches and records what the flags ask for.  The
     * shuffles are random: `orders` holds the order each epoch saw, and the
     * result is the run over exactly those orders.  An exception ends the
     * run with the parameters reached so far.  As in the source, lmbda
     * defaults to 0.0, evaluation_data to None and every monitor to off.
     */
    method SGD(ln: Logarithm, sigma: ActivationFn, trainingData: array<Example>, epochs: int, miniBatchSize: int,
               eta: real, lmbda: real := 0.0, evaluationData: Option<seq<Example>> := None,
               monitors: Monitors := Monitors(false, false, false, false))
      returns (r: Result<History>, ghost orders: seq<seq<Example>>)
      requires Valid() && Represented(trainingData[..], true)
      requires evaluationData.Some? ==> Represented(evaluationData.value, false)
      modifies this, trainingData
      ensures Valid()
      ensures sizes == old(sizes) && numLayers == old(numLayers) && cost == old(cost)
      ensures Batched(orders)
      ensures forall i :: 0 <= i < |orders| ==> multiset(orders[i]) == old(multiset(trainingData[..]))
      ensures |orders| > 0 ==> trainingData[..] == orders[|orders| - 1]
      ensures |orders| == 0 ==> trainingData[..] == old(trainingData[..])
      ensures var s := Schedule(miniBatchSize, eta, lmbda, evaluationData, monitors);
        var t := Run(cost, ln, sigma, sizes, old(Parameters()), orders, s);
        && Parameters() == t.params
        && (t.failure.None? ==> r == Ok(t.history) && |orders| == Epochs(epochs))
        && (t.failure.Some? ==> r == Err(t.failure.value) && 0 < |orders| <= Epochs(epochs))
    {
      var s := Schedule(miniBatchSize, eta, lmbda, evaluationData, monitors);
      ghost var p0 := Parameters();
      ghost var m0 := multiset(trainingData[..]);
      var h := History([], [], [], []);
      var failure: Option<Error> := None;
      orders := [];
      var j := 0;
      while j < epochs && failure.None?
        invariant 0 <= j <= Epochs(epochs) && |orders| == j + (if failure.Some? then 1 else 0)
        invariant failure.Some? ==> j < Epochs(epochs)
        invariant sizes == old(sizes) && numLayers == old(numLayers) && cost == old(cost)
        invariant EpochsSoFar(ln, sigma, trainingData, s, p0, m0, orders, h, failure)
        invariant |orders| == 0 ==> trainingData[..] == old(trainingData[..])
        decreases epochs - j, if failure.None? then 1 else 0
      {
        failure, h, orders := ShuffleAndTrain(ln, sigma, trainingData, s, h, p0, orders, m0);
        if failure.None? {
          j := j + 1;
        }
      }
      r := if failure.Some? then Err(failure.value) else Ok(h);
    }

    /**
     * What holds after the epochs run so far: the data is a reordering of
     * the caller's, and each order the epochs saw as well; the last of them
     * is the data as it now stands; and the run over those orders from the
     * first parameters reaches the current parameters, the history h and the
     * failure, if any.
     */
    ghost predicate EpochsSoFar(ln: Logarithm, sigma: ActivationFn, trainingData: array<Example>, s: Schedule,
                                p0: Params, original: multiset<Example>, orders: seq<seq<Example>>,
                                h: History, failure: Option<Error>)
      reads this, trainingData
    {
      && Valid() && Admissible(s) && Shaped(sizes, p0)
      && Represented(trainingData[..], true) && multiset(trainingData[..]) == original
      && Batched(orders) && (forall i :: 0 <= i < |orders| ==> multiset(orders[i]) == original)
      && (|orders| > 0 ==> trainingData[..] == orders[|orders| - 1])
      && Run(cost, ln, sigma, sizes, p0, orders, s) == Trained(Parameters(), h, failure)
    }

    /**
     * One pass of `for j in xrange(epochs)`: `random.shuffle(training_data)`,
     * then the epoch over the order the shuffle produced, which becomes the
     * next entry of the orders of the run.
     */
    method ShuffleAndTrain(ln: Logarithm, sigma: ActivationFn, trainingData: array<Example>, s: Schedule, h: History,
                           ghost p0: Params, ghost orders: seq<seq<Example>>, ghost original: multiset<Example>)
      returns (failure: Option<Error>, h2: History, ghost orders2: seq<seq<Example>>)
      requires EpochsSoFar(ln, sigma, trainingData, s, p0, original, orders, h, None)
      modifies this, trainingData
      ensures sizes == old(sizes) && numLayers == old(numLayers) && cost == old(cost)
      ensures |orders2| == |orders| + 1
      ensures EpochsSoFar(ln, sigma, trainingData, s, p0, original, orders2, h2, failure)
    {
      Shuffle(trainingData);
      var data := trainingData[..];
      RepresentedPermutation(old(trainingData[..]), data, true);
      RunStep(cost, ln, sigma, sizes, p0, orders, data, s);
      orders2 := orders + [data];
      assert forall i :: 0 <= i < |orders| ==> orders2[i] == orders[i];
      failure, h2 := TrainEpoch(ln, sigma, data, s, h);
    }

    /**
     * One pass of the epoch loop of `SGD` after the shuffle: the mini-batch
     * partition, `update_mini_batch` on each batch with n = len(training_data),
     * then the monitoring.
     */
    method TrainEpoch(ln: Logarithm, sigma: ActivationFn, data: seq<Example>, s: Schedule, h: History)
      returns (failure: Option<Error>, h2: History)
      requires Valid() && Represented(data, true) && Admissible(s)
      modifies this
      ensures Valid()
      ensures sizes == old(sizes) && numLayers == old(numLayers) && cost == old(cost)
      ensures Epoch(cost, ln, sigma, sizes, Trained(old(Parameters()), h, None), data, s) == Trained(Parameters(), h2, failure)
    {
      var batches := MiniBatches(data, s.miniBatchSize);
      if batches.Err? {
        return Some(batches.error), h;
      }
      MiniBatchMembers(data, s.miniBatchSize);
      failure := TrainOnBatches(sigma, batches.value, s.eta, s.lmbda, |data|);
      if failure.Some? {
        return failure, h;
      }
      var observed := Monitor(ln, sigma, data, s, h);
      if observed.Err? {
        return Some(observed.error), h;
      }
      h2 := observed.value;
    }

    /** `for mini_batch in mini_batches: self.update_mini_batch(mini_batch, eta, lmbda, n)`. */
    method TrainOnBatches(sigma: ActivationFn, batches: seq<seq<Example>>, eta: real, lmbda: real, n: nat)
      returns (failure: Option<Error>)
      requires Valid() && Batched(batches)
      modifies this
      ensures Valid()
      ensures sizes == old(sizes) && numLayers == old(numLayers) && cost == old(cost)
      ensures var t := TrainBatches(cost, sigma, sizes, old(Parameters()), batches, eta, lmbda, n);
        Parameters() == t.params && failure == t.failure
    {
      var i := 0;
      assert batches[..0] == [];
      while i < |batches|
        invariant 0 <= i <= |batches|
        invariant Valid() && sizes == old(sizes) && numLayers == old(numLayers) && cost == old(cost)
        invariant Batched(batches[..i])
        invariant TrainBatches(cost, sigma, sizes, old(Parameters()), batches[..i], eta, lmbda, n)
               == Trained(Parameters(), History([], [], [], []), None)
      {
        TrainBatchesStep(cost, sigma, sizes, old(Parameters()), batches, eta, lmbda, n, i);
        failure := UpdateMiniBatch(sigma, batches[i], eta, lmbda, n);
        if failure.Some? {
          TrainBatchesFirstError(cost, sigma, sizes, old(Parameters()), batches, eta, lmbda, n, i + 1);
          return;
        }
        i := i + 1;
      }
      assert batches[..i] == batches;
      failure := None;
    }

    /**
     * The monitoring at the end of an epoch: training cost, training
     * accuracy, evaluation cost and evaluation accuracy, each when its flag
     * is set, in that order.
     */
    method Monitor(ln: Logarithm, sigma: ActivationFn, data: seq<Example>, s: Schedule, h: History)
      returns (r: Result<History>)
      requires Valid() && Represented(data, true) && Admissible(s)
      ensures r == Observe(cost, ln, sigma, sizes, Parameters(), data, s, h)
    {
      r := MonitorTrainingCost(ln, sigma, data, s.lmbda, Ok(h), s.monitors.trainingCost);
      r := MonitorTrainingAccuracy(sigma, data, r, s.monitors.trainingAccuracy);
      r := MonitorEvaluationCost(ln, sigma, s, r, s.monitors.evaluationCost);
      r := MonitorEvaluationAccuracy(sigma, s, r, s.monitors.evaluationAccuracy);
    }

    /** `if monitor_training_cost`: total_cost(training_data, lmbda), appended. */
    method MonitorTrainingCost(ln: Logarithm, sigma: ActivationFn, data: seq<Example>, lmbda: real,
                               r: Result<History>, on: bool) returns (r2: Result<History>)
      requires Valid() && Represented(data, true)
      ensures r2 == WithTrainingCost(r, on, TotalCostOf(cost, ln, sigma, sizes, Parameters(), data, lmbda, false))
    {
      if r.Err? || !on {
        return r;
      }
      var c := TotalCost(ln, sigma, data, lmbda, false);
      if c.Err? {
        return Err(c.error);
      }
      r2 := Ok(r.value.(trainingCost := r.value.trainingCost + [c.value]));
    }

    /** `if monitor_training_accuracy`: accuracy(training_data, convert=True), appended. */
    method MonitorTrainingAccuracy(sigma: ActivationFn, data: seq<Example>, r: Result<History>, on: bool)
      returns (r2: Result<History>)
      requires Valid() && Represented(data, true)
      ensures r2 == WithTrainingAccuracy(r, on, AccuracyOf(sigma, sizes, Parameters(), data, true))
    {
      if r.Err? || !on {
        return r;
      }
      var a := Accuracy(sigma, data, true);
      if a.Err? {
        return Err(a.error);
      }
      r2 := Ok(r.value.(trainingAccuracy := r.value.trainingAccuracy + [a.value]));
    }

    /** `if monitor_evaluation_cost`: total_cost(evaluation_data, lmbda, convert=True), appended. */
    method MonitorEvaluationCost(ln: Logarithm, sigma: ActivationFn, s: Schedule, r: Result<History>, on: bool)
      returns (r2: Result<History>)
      requires Valid() && Admissible(s)
      ensures r2 == WithEvaluationCost(r, on, EvaluationCost(cost, ln, sigma, sizes, Parameters(), s))
    {
      if r.Err? || !on {
        return r;
      }
      if s.evaluationData.None? {
        return Err(NoEvaluationData);
      }
      var c := TotalCost(ln, sigma, s.evaluationData.value, s.lmbda, true);
      if c.Err? {
        return Err(c.error);
      }
      r2 := Ok(r.value.(evaluationCost := r.value.evaluationCost + [c.value]));
    }

    /** `if monitor_evaluation_accuracy`: accuracy(evaluation_data), appended. */
    method MonitorEvaluationAccuracy(sigma: ActivationFn, s: Schedule, r: Result<History>, on: bool)
      returns (r2: Result<History>)
      requires Valid() && Admissible(s)
      ensures r2 == WithEvaluationAccuracy(r, on, EvaluationAccuracy(sigma, sizes, Parameters(), s))
    {
      if r.Err? || !on {
        return r;
      }
      if s.evaluationData.None? {
        return Err(NoEvaluationData);
      }
      var a := Accuracy(sigma, s.evaluationData.value, false);
      if a.Err? {
        return Err(a.error);
      }
      if |s.evaluationData.value| == 0 {
        // the progress line names n_data, bound only for non-empty evaluation data
        return Err(NoEvaluationData);
      }
      r2 := Ok(r.value.(evaluationAccuracy := r.value.evaluationAccuracy + [a.value]));
    }

    /**
     * One pass of the loop of `total_cost`: self.cost.fn(a, y) of the
     * output a and the (with `convert`, vectorized) target y.
     */
    method ExampleCost(ln: Logarithm, sigma: ActivationFn, e: Example, convert: bool) returns (loss: Result<real>)
      requires Valid() && (if convert then e.y.Label? else e.y.OneHot?)
      ensures loss == ExampleLoss(cost, ln, sigma, sizes, Parameters(), e, convert)
    {
      var a := Feedforward(sigma, e.x);
      if a.Err? {
        return Err(a.error);
      }
      var y: Result<Vector>;
      if convert {
        y := VectorizedResult(e.y.digit);
      } else {
        y := Ok(e.y.vector);
      }
      if y.Err? {
        loss := Err(y.error);
      } else if |a.value| != |y.value| {
        loss := Err(ShapeMismatch);
      } else {
        loss := Ok(Fn(cost, ln, a.value, y.value));
      }
    }
  }

  /** np.random.randn for every layer: values of the right shapes, otherwise arbitrary. */
  method DrawParameters(sizes: seq<nat>) returns (q: Params)
    ensures Shaped(sizes, q)
  {
    var n := Transitions(sizes);
    ghost var zeros := Params(seq(n, k requires 0 <= k < n => Zeros(sizes[k + 1])),
                              seq(n, k requires 0 <= k < n => seq(sizes[k + 1], i => Zeros(sizes[k]))));
    assert Shaped(sizes, zeros);
    q :| Shaped(sizes, q);
  }

  /** The number of passes of `for j in xrange(epochs)`. */
  function Epochs(epochs: int): nat {
    if epochs < 0 then 0 else epochs
  }

  /**
   * `random.shuffle(x)`: for i from len(x) - 1 down to 1, swap x[i] with
   * x[j] for a random j in [0, i].  The draws are arbitrary, so the result
   * is a permutation of the input and nothing more is known of it.
   */
  method Shuffle<T>(a: array<T>)
    modifies a
    ensures multiset(a[..]) == old(multiset(a[..]))
  {
    var i := a.Length - 1;
    while i > 0
      invariant i < a.Length
      invariant multiset(a[..]) == old(multiset(a[..]))
    {
      var j :| 0 <= j <= i;
      a[i], a[j] := a[j], a[i];
      i := i - 1;
    }
  }
}
