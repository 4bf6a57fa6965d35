/**
 * What `accuracy` and `total_cost` of network2.py compute, as functions of
 * the layer sizes, the parameters and the data set.
 */
module Evaluation {
  import opened Outcomes
  import opened LinAlg
  import opened Utility
  import opened Costs
  import opened Propagation

  // --------------------------------------------------------------- accuracy

  /** np.argmax(self.feedforward(x)): the digit the network picks for x. */
  function Prediction(sigma: ActivationFn, sizes: seq<nat>, p: Params, x: Vector): (r: Result<nat>)
    requires Shaped(sizes, p)
    ensures r.Ok? <==> Output(sigma, sizes, p, x).Ok? && |Output(sigma, sizes, p, x).value| > 0
    ensures r.Err? ==> r.error == ShapeMismatch || r.error == EmptyArgmax
  {
    match Output(sigma, sizes, p, x)
    case Err(e) => Err(e)
    case Ok(a) => if |a| == 0 then Err(EmptyArgmax) else Ok(Argmax(a))
  }

  /** The predicted digit indexes an output entry that no other entry exceeds. */
  lemma PredictionArgmax(sigma: ActivationFn, sizes: seq<nat>, p: Params, x: Vector)
    requires Shaped(sizes, p) && Prediction(sigma, sizes, p, x).Ok?
    ensures var a, k := Output(sigma, sizes, p, x).value, Prediction(sigma, sizes, p, x).value;
      k < |a| && forall i :: 0 <= i < |a| ==> a[i] <= a[k]
  {
  }

  /** The digit a target stands for: np.argmax(y) of a one-hot vector, or the digit itself. */
  function Expected(y: Target): Result<int> {
    match y
    case OneHot(v) => if |v| == 0 then Err(EmptyArgmax) else Ok(Argmax(v))
    case Label(d) => Ok(d)
  }

  /** One entry `int(x == y)` of `accuracy`, as a truth value. */
  function Hit(sigma: ActivationFn, sizes: seq<nat>, p: Params, e: Example): (r: Result<bool>)
    requires Shaped(sizes, p)
    ensures r.Ok? <==> Prediction(sigma, sizes, p, e.x).Ok? && Expected(e.y).Ok?
    ensures r.Err? ==> r.error == ShapeMismatch || r.error == EmptyArgmax
  {
    match Prediction(sigma, sizes, p, e.x)
    case Err(err) => Err(err)
    case Ok(k) =>
      match Expected(e.y)
      case Err(err) => Err(err)
      case Ok(d) => Ok(k == d)
  }

  /** A hit on a digit target: the digit indexes an output entry no other entry exceeds. */
  lemma HitOnLabel(sigma: ActivationFn, sizes: seq<nat>, p: Params, x: Vector, d: int)
    requires Shaped(sizes, p) && Hit(sigma, sizes, p, Example(x, Label(d))) == Ok(true)
    ensures Output(sigma, sizes, p, x).Ok?
    ensures var a := Output(sigma, sizes, p, x).value;
      0 <= d < |a| && forall i :: 0 <= i < |a| ==> a[i] <= a[d]
  {
    PredictionArgmax(sigma, sizes, p, x);
  }

  /**
   * `accuracy(data, convert)`: the number of examples whose prediction is
   * their expected digit.  `convert` says how the targets are represented,
   * which the docstring requires to match the data set.  It fails, on the
   * first example that fails, exactly when some example does.
   */
  function AccuracyOf(sigma: ActivationFn, sizes: seq<nat>, p: Params, data: seq<Example>, convert: bool): (r: Result<nat>)
    requires Shaped(sizes, p) && Represented(data, convert)
    ensures r.Ok? ==> r.value <= |data|
    ensures r.Err? ==> r.error == ShapeMismatch || r.error == EmptyArgmax
    decreases |data|
  {
    if |data| == 0 then Ok(0)
    else
      var init := data[..|data| - 1];
      assert forall i :: 0 <= i < |init| ==> init[i] == data[i];
      Tally(AccuracyOf(sigma, sizes, p, init, convert), Hit(sigma, sizes, p, data[|data| - 1]))
  }

  /** The count after one more entry: a hit adds one; an error, earlier or now, ends the count. */
  function Tally(count: Result<nat>, hit: Result<bool>): (r: Result<nat>) {
    match count
    case Err(err) => Err(err)
    case Ok(c) =>
      match hit
      case Err(err) => Err(err)
      case Ok(h) => Ok(if h then c + 1 else c)
  }

  /**
   * `accuracy` raises exactly when some example fails to classify, and
   * counts every example exactly when every prediction is right.
   */
  lemma AccuracyOk(sigma: ActivationFn, sizes: seq<nat>, p: Params, data: seq<Example>, convert: bool)
    requires Shaped(sizes, p) && Represented(data, convert)
    ensures var r := AccuracyOf(sigma, sizes, p, data, convert);
      && (r.Ok? <==> forall i :: 0 <= i < |data| ==> Hit(sigma, sizes, p, data[i]).Ok?)
      && (r.Ok? ==> (r.value == |data| <==> forall i :: 0 <= i < |data| ==> Hit(sigma, sizes, p, data[i]) == Ok(true)))
  {
    AccuracyDefined(sigma, sizes, p, data, convert);
    AccuracyAllHits(sigma, sizes, p, data, convert);
  }

  lemma {:induction false} AccuracyDefined(sigma: ActivationFn, sizes: seq<nat>, p: Params, data: seq<Example>, convert: bool)
    requires Shaped(sizes, p) && Represented(data, convert)
    ensures AccuracyOf(sigma, sizes, p, data, convert).Ok? <==> forall i :: 0 <= i < |data| ==> Hit(sigma, sizes, p, data[i]).Ok?
    decreases |data|
  {
    if |data| > 0 {
      var init := data[..|data| - 1];
      assert forall i :: 0 <= i < |init| ==> init[i] == data[i];
      AccuracyDefined(sigma, sizes, p, init, convert);
    }
  }

  lemma {:induction false} AccuracyAllHits(sigma: ActivationFn, sizes: seq<nat>, p: Params, data: seq<Example>, convert: bool)
    requires Shaped(sizes, p) && Represented(data, convert)
    ensures var r := AccuracyOf(sigma, sizes, p, data, convert);
      r.Ok? ==> (r.value == |data| <==> forall i :: 0 <= i < |data| ==> Hit(sigma, sizes, p, data[i]) == Ok(true))
    decreases |data|
  {
    if |data| > 0 {
      var init := data[..|data| - 1];
      assert forall i :: 0 <= i < |init| ==> init[i] == data[i];
      AccuracyAllHits(sigma, sizes, p, init, convert);
    }
  }

  /** The training targets, as `load_data_wrapper` builds them: vectorized_result of each digit. */
  function Vectorized(data: seq<Example>): (r: seq<Example>)
    requires Represented(data, false)
    requires forall i :: 0 <= i < |data| ==> 0 <= data[i].y.digit < Digits
    ensures Represented(r, true) && |r| == |data|
    ensures forall i :: 0 <= i < |data| ==> r[i] == Example(data[i].x, OneHot(UnitVector(data[i].y.digit).value))
  {
    seq(|data|, i requires 0 <= i < |data| => Example(data[i].x, OneHot(UnitVector(data[i].y.digit).value)))
  }

  /** np.argmax of vectorized_result(d) is d, so both targets expect the same digit. */
  lemma HitConvert(sigma: ActivationFn, sizes: seq<nat>, p: Params, x: Vector, d: int)
    requires Shaped(sizes, p) && 0 <= d < Digits
    ensures Hit(sigma, sizes, p, Example(x, OneHot(UnitVector(d).value))) == Hit(sigma, sizes, p, Example(x, Label(d)))
  {
    ArgmaxUnitVector(d);
  }

  /**
   * The two conventions agree: the accuracy with `convert` on the one-hot
   * encodings of the digits is the accuracy on the digits themselves.
   */
  lemma AccuracyConvert(sigma: ActivationFn, sizes: seq<nat>, p: Params, data: seq<Example>)
    requires Shaped(sizes, p) && Represented(data, false)
    requires forall i :: 0 <= i < |data| ==> 0 <= data[i].y.digit < Digits
    ensures AccuracyOf(sigma, sizes, p, Vectorized(data), true) == AccuracyOf(sigma, sizes, p, data, false)
  {
    var v := Vectorized(data);
    forall i | 0 <= i < |data| ensures Hit(sigma, sizes, p, v[i]) == Hit(sigma, sizes, p, data[i]) {
      var e := data[i];
      HitConvert(sigma, sizes, p, e.x, e.y.digit);
      assert e == Example(e.x, Label(e.y.digit));
    }
    AccuracyAgree(sigma, sizes, p, v, true, data, false);
  }

  /** Two data sets whose examples hit alike, position by position, have the same accuracy. */
  lemma {:induction false} AccuracyAgree(sigma: ActivationFn, sizes: seq<nat>, p: Params,
                                         d1: seq<Example>, c1: bool, d2: seq<Example>, c2: bool)
    requires Shaped(sizes, p) && Represented(d1, c1) && Represented(d2, c2) && |d1| == |d2|
    requires forall i :: 0 <= i < |d1| ==> Hit(sigma, sizes, p, d1[i]) == Hit(sigma, sizes, p, d2[i])
    ensures AccuracyOf(sigma, sizes, p, d1, c1) == AccuracyOf(sigma, sizes, p, d2, c2)
    decreases |d1|
  {
    if |d1| > 0 {
      var i1, i2 := d1[..|d1| - 1], d2[..|d2| - 1];
      assert forall i :: 0 <= i < |i1| ==> i1[i] == d1[i] && i2[i] == d2[i];
      AccuracyAgree(sigma, sizes, p, i1, c1, i2, c2);
    }
  }

  /** One more example: its hit is counted, unless the prefix or the example fails. */
  lemma AccuracyStep(sigma: ActivationFn, sizes: seq<nat>, p: Params, data: seq<Example>, convert: bool, i: nat)
    requires Shaped(sizes, p) && Represented(data, convert) && i < |data|
    ensures Represented(data[..i], convert) && Represented(data[..i + 1], convert)
    ensures var prev, hit := AccuracyOf(sigma, sizes, p, data[..i], convert), Hit(sigma, sizes, p, data[i]);
      && (prev.Err? ==> AccuracyOf(sigma, sizes, p, data[..i + 1], convert) == prev)
      && (prev.Ok? && hit.Err? ==> AccuracyOf(sigma, sizes, p, data[..i + 1], convert) == Err(hit.error))
      && (prev.Ok? && hit.Ok? ==>
            AccuracyOf(sigma, sizes, p, data[..i + 1], convert) == Ok(if hit.value then prev.value + 1 else prev.value))
  {
    assert forall k :: 0 <= k < i + 1 ==> data[..i + 1][k] == data[k];
    assert data[..i + 1][..i] == data[..i];
  }

  /**
   * The first example that fails decides: once a prefix of the data fails,
   * `accuracy` of the whole data set raises the same error.
   */
  lemma {:induction false} AccuracyFirstError(sigma: ActivationFn, sizes: seq<nat>, p: Params, data: seq<Example>,
                                              convert: bool, j: nat)
    requires Shaped(sizes, p) && Represented(data, convert) && j <= |data|
    ensures Represented(data[..j], convert)
    ensures AccuracyOf(sigma, sizes, p, data[..j], convert).Err? ==>
            AccuracyOf(sigma, sizes, p, data, convert) == AccuracyOf(sigma, sizes, p, data[..j], convert)
    decreases |data|
  {
    assert forall i :: 0 <= i < j ==> data[..j][i] == data[i];
    if j < |data| {
      var init := data[..|data| - 1];
      assert forall i :: 0 <= i < |init| ==> init[i] == data[i];
      assert init[..j] == data[..j];
      AccuracyFirstError(sigma, sizes, p, init, convert, j);
    } else {
      assert data[..j] == data;
    }
  }

  // ------------------------------------------------------------- total cost

  /**
   * `self.cost.fn(a, y)` for one example, after feedforward and (with
   * `convert`) vectorized_result of the digit; a - y needs equal lengths.
   */
  function ExampleLoss(cost: CostFunction, ln: Logarithm, sigma: ActivationFn, sizes: seq<nat>, p: Params,
                       e: Example, convert: bool): (r: Result<real>)
    requires Shaped(sizes, p)
    requires if convert then e.y.Label? else e.y.OneHot?
    ensures r.Err? ==> r.error == ShapeMismatch || r.error == IndexOutOfRange
  {
    match Output(sigma, sizes, p, e.x)
    case Err(err) => Err(err)
    case Ok(a) =>
      match (if convert then UnitVector(e.y.digit) else Ok(e.y.vector))
      case Err(err) => Err(err)
      case Ok(y) => if |a| != |y| then Err(ShapeMismatch) else Ok(Fn(cost, ln, a, y))
  }

  /** The loss of every example of `data`, in order, each a value or the error it raises. */
  function LossResults(cost: CostFunction, ln: Logarithm, sigma: ActivationFn, sizes: seq<nat>, p: Params,
                       data: seq<Example>, convert: bool): (r: seq<Result<real>>)
    requires Shaped(sizes, p) && Represented(data, !convert)
    ensures |r| == |data| && forall i :: 0 <= i < |data| ==> r[i] == ExampleLoss(cost, ln, sigma, sizes, p, data[i], convert)
    decreases |data|
  {
    if |data| == 0 then []
    else
      var init := data[..|data| - 1];
      assert forall i :: 0 <= i < |init| ==> init[i] == data[i];
      LossResults(cost, ln, sigma, sizes, p, init, convert) + [ExampleLoss(cost, ln, sigma, sizes, p, data[|data| - 1], convert)]
  }

  /** The losses are determined example by example. */
  lemma LossResultsPointwise(cost: CostFunction, ln: Logarithm, sigma: ActivationFn, sizes: seq<nat>, p: Params,
                             data: seq<Example>, convert: bool, ls: seq<Result<real>>)
    requires Shaped(sizes, p) && Represented(data, !convert) && |ls| == |data|
    requires forall i :: 0 <= i < |data| ==> ls[i] == ExampleLoss(cost, ln, sigma, sizes, p, data[i], convert)
    ensures ls == LossResults(cost, ln, sigma, sizes, p, data, convert)
  {
  }

  /**
   * The value of `cost` after the loop of `total_cost`: each loss divided
   * by n = len(data) is added in order, and the first loss that raises
   * ends the loop with its error.
   */
  function AddUp(rs: seq<Result<real>>, n: nat): (r: Result<real>)
    requires n > 0
    ensures r.Ok? <==> forall i :: 0 <= i < |rs| ==> rs[i].Ok?
    decreases |rs|
  {
    if |rs| == 0 then Ok(0.0)
    else
      var init := rs[..|rs| - 1];
      assert forall i :: 0 <= i < |init| ==> init[i] == rs[i];
      match AddUp(init, n)
      case Err(err) => Err(err)
      case Ok(c) =>
        match rs[|rs| - 1]
        case Err(err) => Err(err)
        case Ok(l) => Ok(c + l / n as real)
  }

  /** One more loss: it is added, unless the prefix or the loss raises. */
  lemma AddUpStep(rs: seq<Result<real>>, n: nat, i: nat)
    requires n > 0 && i < |rs|
    ensures AddUp(rs[..i], n).Err? ==> AddUp(rs[..i + 1], n) == AddUp(rs[..i], n)
    ensures AddUp(rs[..i], n).Ok? && rs[i].Err? ==> AddUp(rs[..i + 1], n) == rs[i]
    ensures AddUp(rs[..i], n).Ok? && rs[i].Ok? ==>
            AddUp(rs[..i + 1], n) == Ok(AddUp(rs[..i], n).value + rs[i].value / n as real)
  {
    var b := rs[..i + 1];
    assert b[..|b| - 1] == rs[..i] && b[|b| - 1] == rs[i];
  }

  /** Once a prefix raises, the whole loop raises that error. */
  lemma {:induction false} AddUpFirstError(rs: seq<Result<real>>, n: nat, j: nat)
    requires n > 0 && j <= |rs|
    ensures AddUp(rs[..j], n).Err? ==> AddUp(rs, n) == AddUp(rs[..j], n)
    decreases |rs|
  {
    if j < |rs| {
      var init := rs[..|rs| - 1];
      assert init[..j] == rs[..j];
      AddUpFirstError(init, n, j);
    } else {
      assert rs[..j] == rs;
    }
  }

  /** The error the loop raises is that of the first loss that raises. */
  lemma {:induction false} AddUpError(rs: seq<Result<real>>, n: nat)
    requires n > 0 && AddUp(rs, n).Err?
    ensures exists j :: 0 <= j < |rs| && rs[j] == AddUp(rs, n) && forall k :: 0 <= k < j ==> rs[k].Ok?
    decreases |rs|
  {
    var init := rs[..|rs| - 1];
    assert forall i :: 0 <= i < |init| ==> init[i] == rs[i];
    if AddUp(init, n).Err? {
      AddUpError(init, n);
      var j :| 0 <= j < |init| && init[j] == AddUp(init, n) && forall k :: 0 <= k < j ==> init[k].Ok?;
      assert rs[j] == AddUp(rs, n);
    } else {
      assert rs[|rs| - 1] == AddUp(rs, n);
    }
  }

  /** The values of losses none of which raises. */
  function Values(rs: seq<Result<real>>): (r: seq<real>)
    requires forall i :: 0 <= i < |rs| ==> rs[i].Ok?
    ensures |r| == |rs| && forall i :: 0 <= i < |rs| ==> rs[i] == Ok(r[i])
  {
    seq(|rs|, i requires 0 <= i < |rs| => rs[i].value)
  }

  lemma DivideSum(s: real, l: real, n: real)
    requires n > 0.0
    ensures s / n + l / n == (s + l) / n
  {
    assert (s / n) * n == s && (l / n) * n == l;
    assert (s / n + l / n) * n == s + l;
  }

  /** When no loss raises, the loop adds up to the sum of the losses divided by n. */
  lemma {:induction false} AddUpSum(rs: seq<Result<real>>, n: nat)
    requires n > 0 && forall i :: 0 <= i < |rs| ==> rs[i].Ok?
    ensures AddUp(rs, n) == Ok(Sum(Values(rs)) / n as real)
    decreases |rs|
  {
    if |rs| > 0 {
      var init := rs[..|rs| - 1];
      assert forall i :: 0 <= i < |init| ==> init[i] == rs[i];
      AddUpSum(init, n);
      var vs := Values(rs);
      assert vs[..|vs| - 1] == Values(init);
      var s, l := Sum(vs[..|vs| - 1]), vs[|vs| - 1];
      assert Sum(vs) == s + l;
      DivideSum(s, l, n as real);
    }
  }

  /** sum(np.linalg.norm(w)**2 for w in self.weights). */
  function WeightPenalty(p: Params): real {
    Sum(seq(|p.weights|, k requires 0 <= k < |p.weights| => FrobeniusSquared(p.weights[k])))
  }

  /** The L2 term of `total_cost`: 0.5 * (lmbda / n) * the squared norms of the weights. */
  function L2Term(lmbda: real, n: nat, p: Params): real
    requires n > 0
  {
    0.5 * (lmbda / n as real) * WeightPenalty(p)
  }

  /**
   * `total_cost(data, lmbda, convert)`: the losses added up, then the L2
   * term.  On an empty data set the division lmbda / len(data) fails.
   */
  function TotalCostOf(cost: CostFunction, ln: Logarithm, sigma: ActivationFn, sizes: seq<nat>, p: Params,
                       data: seq<Example>, lmbda: real, convert: bool): (r: Result<real>)
    requires Shaped(sizes, p) && Represented(data, !convert)
    ensures r.Ok? <==> |data| > 0 && forall i :: 0 <= i < |data| ==> ExampleLoss(cost, ln, sigma, sizes, p, data[i], convert).Ok?
    ensures |data| == 0 ==> r == Err(DivisionByZero)
  {
    if |data| == 0 then Err(DivisionByZero)
    else
      match AddUp(LossResults(cost, ln, sigma, sizes, p, data, convert), |data|)
      case Err(err) => Err(err)
      case Ok(c) => Ok(c + L2Term(lmbda, |data|, p))
  }

  /**
   * total_cost raises the error of the first example whose loss raises, or
   * the division by zero of an empty data set, and nothing else.
   */
  lemma TotalCostErrors(cost: CostFunction, ln: Logarithm, sigma: ActivationFn, sizes: seq<nat>, p: Params,
                        data: seq<Example>, lmbda: real, convert: bool)
    requires Shaped(sizes, p) && Represented(data, !convert)
    requires TotalCostOf(cost, ln, sigma, sizes, p, data, lmbda, convert).Err? && |data| > 0
    ensures exists j ::
      && 0 <= j < |data|
      && ExampleLoss(cost, ln, sigma, sizes, p, data[j], convert) == TotalCostOf(cost, ln, sigma, sizes, p, data, lmbda, convert)
      && forall k :: 0 <= k < j ==> ExampleLoss(cost, ln, sigma, sizes, p, data[k], convert).Ok?
    ensures var e := TotalCostOf(cost, ln, sigma, sizes, p, data, lmbda, convert).error;
      e == ShapeMismatch || e == IndexOutOfRange
  {
    var rs := LossResults(cost, ln, sigma, sizes, p, data, convert);
    AddUpError(rs, |data|);
    var j :| 0 <= j < |rs| && rs[j] == AddUp(rs, |data|) && forall k :: 0 <= k < j ==> rs[k].Ok?;
    assert ExampleLoss(cost, ln, sigma, sizes, p, data[j], convert) == rs[j];
  }

  /** total_cost once the loop has added up c: c plus the L2 term. */
  lemma TotalCostOfSum(cost: CostFunction, ln: Logarithm, sigma: ActivationFn, sizes: seq<nat>, p: Params,
                       data: seq<Example>, lmbda: real, convert: bool, c: real)
    requires Shaped(sizes, p) && Represented(data, !convert) && |data| > 0
    requires AddUp(LossResults(cost, ln, sigma, sizes, p, data, convert), |data|) == Ok(c)
    ensures TotalCostOf(cost, ln, sigma, sizes, p, data, lmbda, convert).Ok?
    ensures TotalCostOf(cost, ln, sigma, sizes, p, data, lmbda, convert).value == c + L2Term(lmbda, |data|, p)
  {
  }

  /** When the loop of total_cost raises, total_cost raises the same error. */
  lemma TotalCostOfError(cost: CostFunction, ln: Logarithm, sigma: ActivationFn, sizes: seq<nat>, p: Params,
                         data: seq<Example>, lmbda: real, convert: bool, e: Error)
    requires Shaped(sizes, p) && Represented(data, !convert) && |data| > 0
    requires AddUp(LossResults(cost, ln, sigma, sizes, p, data, convert), |data|) == Err(e)
    ensures TotalCostOf(cost, ln, sigma, sizes, p, data, lmbda, convert) == Err(e)
  {
  }

  /** The losses of the examples, in order, when none of them raises. */
  function Losses(cost: CostFunction, ln: Logarithm, sigma: ActivationFn, sizes: seq<nat>, p: Params,
                  data: seq<Example>, convert: bool): (r: seq<real>)
    requires Shaped(sizes, p) && Represented(data, !convert)
    requires forall i :: 0 <= i < |data| ==> ExampleLoss(cost, ln, sigma, sizes, p, data[i], convert).Ok?
    ensures |r| == |data|
    ensures forall i :: 0 <= i < |data| ==> ExampleLoss(cost, ln, sigma, sizes, p, data[i], convert) == Ok(r[i])
  {
    Values(LossResults(cost, ln, sigma, sizes, p, data, convert))
  }

  /** total_cost is the mean of the losses plus the L2 term. */
  lemma TotalCostMean(cost: CostFunction, ln: Logarithm, sigma: ActivationFn, sizes: seq<nat>, p: Params,
                      data: seq<Example>, lmbda: real, convert: bool)
    requires Shaped(sizes, p) && Represented(data, !convert)
    requires TotalCostOf(cost, ln, sigma, sizes, p, data, lmbda, convert).Ok?
    ensures TotalCostOf(cost, ln, sigma, sizes, p, data, lmbda, convert).value
         == Sum(Losses(cost, ln, sigma, sizes, p, data, convert)) / |data| as real
            + L2Term(lmbda, |data|, p)
  {
    AddUpSum(LossResults(cost, ln, sigma, sizes, p, data, convert), |data|);
  }

  lemma QuadraticLossNonnegative(ln: Logarithm, sigma: ActivationFn, sizes: seq<nat>, p: Params, e: Example, convert: bool)
    requires Shaped(sizes, p) && (if convert then e.y.Label? else e.y.OneHot?)
    requires ExampleLoss(QuadraticCost, ln, sigma, sizes, p, e, convert).Ok?
    ensures ExampleLoss(QuadraticCost, ln, sigma, sizes, p, e, convert).value >= 0.0
  {
  }

  lemma WeightPenaltyNonnegative(p: Params)
    ensures WeightPenalty(p) >= 0.0
  {
    var ws := seq(|p.weights|, k requires 0 <= k < |p.weights| => FrobeniusSquared(p.weights[k]));
    SumNonnegative(ws);
  }

  /** For the quadratic cost and lmbda >= 0, total_cost is never negative. */
  lemma QuadraticTotalCostNonnegative(ln: Logarithm, sigma: ActivationFn, sizes: seq<nat>, p: Params,
                                      data: seq<Example>, lmbda: real, convert: bool)
    requires Shaped(sizes, p) && Represented(data, !convert) && lmbda >= 0.0
    requires TotalCostOf(QuadraticCost, ln, sigma, sizes, p, data, lmbda, convert).Ok?
    ensures TotalCostOf(QuadraticCost, ln, sigma, sizes, p, data, lmbda, convert).value >= 0.0
  {
    TotalCostMean(QuadraticCost, ln, sigma, sizes, p, data, lmbda, convert);
    var ls := Losses(QuadraticCost, ln, sigma, sizes, p, data, convert);
    QuadraticLossesNonnegative(ln, sigma, sizes, p, data, convert);
    SumNonnegative(ls);
    MeanNonnegative(Sum(ls), |data|, lmbda, p);
  }

  lemma QuadraticLossesNonnegative(ln: Logarithm, sigma: ActivationFn, sizes: seq<nat>, p: Params,
                                   data: seq<Example>, convert: bool)
    requires Shaped(sizes, p) && Represented(data, !convert)
    requires forall i :: 0 <= i < |data| ==> ExampleLoss(QuadraticCost, ln, sigma, sizes, p, data[i], convert).Ok?
    ensures forall i :: 0 <= i < |data| ==> Losses(QuadraticCost, ln, sigma, sizes, p, data, convert)[i] >= 0.0
  {
    var ls := Losses(QuadraticCost, ln, sigma, sizes, p, data, convert);
    forall i | 0 <= i < |ls| ensures ls[i] >= 0.0 {
      QuadraticLossNonnegative(ln, sigma, sizes, p, data[i], convert);
    }
  }

  /** A mean of nonnegative losses plus the L2 term with lmbda >= 0 is nonnegative. */
  lemma MeanNonnegative(s: real, n: nat, lmbda: real, p: Params)
    requires s >= 0.0 && n > 0 && lmbda >= 0.0
    ensures s / n as real + L2Term(lmbda, n, p) >= 0.0
  {
    WeightPenaltyNonnegative(p);
    assert s / n as real >= 0.0 && lmbda / n as real >= 0.0;
  }
}
