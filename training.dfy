/**
 * What `SGD` of network2.py computes, epoch by epoch, once the order in
 * which each epoch's shuffle left the training data is known: the
 * mini-batch steps, the monitored costs and accuracies, and where an
 * exception stops the run.
 */
module Training {
  import opened Outcomes
  import opened Utility
  import opened Costs
  import opened Propagation
  import opened Learning
  import opened Evaluation
  import opened Batching

  /** The four monitor_* flags of `SGD`. */
  datatype Monitors = Monitors(evaluationCost: bool, evaluationAccuracy: bool, trainingCost: bool, trainingAccuracy: bool)

  /** The four lists `SGD` returns, in its order. */
  datatype History = History(evaluationCost: seq<real>, evaluationAccuracy: seq<nat>,
                             trainingCost: seq<real>, trainingAccuracy: seq<nat>)

  /** The hyper-parameters of one call of `SGD` other than the epoch count. */
  datatype Schedule = Schedule(miniBatchSize: int, eta: real, lmbda: real,
                               evaluationData: Option<seq<Example>>, monitors: Monitors)

  /**
   * Where training stands: the parameters of the network, the lists so far,
   * and the error that ended the run, if one did.  After an exception the
   * network keeps the parameters it had reached; the lists are lost.
   */
  datatype Trained = Trained(params: Params, history: History, failure: Option<Error>)

  predicate Batched(batches: seq<seq<Example>>) {
    forall i :: 0 <= i < |batches| ==> Represented(batches[i], true)
  }

  /** len(evaluation_data), or 0 when there is none. */
  function EvaluationSize(s: Schedule): nat {
    if s.evaluationData.Some? then |s.evaluationData.value| else 0
  }

  predicate Admissible(s: Schedule) {
    s.evaluationData.Some? ==> Represented(s.evaluationData.value, false)
  }

  /**
   * `for mini_batch in mini_batches: self.update_mini_batch(...)`: the steps
   * in order, stopping at the first that raises; a step that raises changes
   * nothing.
   */
  function TrainBatches(cost: CostFunction, sigma: ActivationFn, sizes: seq<nat>, p: Params,
                        batches: seq<seq<Example>>, eta: real, lmbda: real, n: nat): (r: Trained)
    requires Shaped(sizes, p) && Batched(batches)
    ensures Shaped(sizes, r.params)
    ensures r.history == History([], [], [], [])
    ensures r.failure.Some? ==> var e := r.failure.value; e == ShapeMismatch || e == IndexOutOfRange || e == DivisionByZero
    decreases |batches|
  {
    if |batches| == 0 then Trained(p, History([], [], [], []), None)
    else
      var init := batches[..|batches| - 1];
      assert forall i :: 0 <= i < |init| ==> init[i] == batches[i];
      var prev := TrainBatches(cost, sigma, sizes, p, init, eta, lmbda, n);
      if prev.failure.Some? then prev
      else
        match MiniBatchStep(cost, sigma, sizes, prev.params, batches[|batches| - 1], eta, lmbda, n)
        case Err(e) => Trained(prev.params, prev.history, Some(e))
        case Ok(q) => Trained(q, prev.history, None)
  }

  /** One more mini-batch: its step is taken, unless an earlier one raised. */
  lemma TrainBatchesStep(cost: CostFunction, sigma: ActivationFn, sizes: seq<nat>, p: Params,
                         batches: seq<seq<Example>>, eta: real, lmbda: real, n: nat, i: nat)
    requires Shaped(sizes, p) && Batched(batches) && i < |batches|
    ensures Batched(batches[..i]) && Batched(batches[..i + 1])
    ensures var prev := TrainBatches(cost, sigma, sizes, p, batches[..i], eta, lmbda, n);
      TrainBatches(cost, sigma, sizes, p, batches[..i + 1], eta, lmbda, n)
      == if prev.failure.Some? then prev
         else match MiniBatchStep(cost, sigma, sizes, prev.params, batches[i], eta, lmbda, n)
              case Err(e) => Trained(prev.params, prev.history, Some(e))
              case Ok(q) => Trained(q, prev.history, None)
  {
    assert forall k :: 0 <= k < i + 1 ==> batches[..i + 1][k] == batches[k];
    assert batches[..i + 1][..i] == batches[..i];
  }

  /** Once a step raises, the later mini-batches are never reached. */
  lemma {:induction false} TrainBatchesFirstError(cost: CostFunction, sigma: ActivationFn, sizes: seq<nat>, p: Params,
                                                  batches: seq<seq<Example>>, eta: real, lmbda: real, n: nat, j: nat)
    requires Shaped(sizes, p) && Batched(batches) && j <= |batches|
    ensures Batched(batches[..j])
    ensures TrainBatches(cost, sigma, sizes, p, batches[..j], eta, lmbda, n).failure.Some? ==>
            TrainBatches(cost, sigma, sizes, p, batches, eta, lmbda, n) == TrainBatches(cost, sigma, sizes, p, batches[..j], eta, lmbda, n)
    decreases |batches|
  {
    assert forall i :: 0 <= i < j ==> batches[..j][i] == batches[i];
    if j < |batches| {
      var init := batches[..|batches| - 1];
      assert forall i :: 0 <= i < |init| ==> init[i] == batches[i];
      assert init[..j] == batches[..j];
      TrainBatchesFirstError(cost, sigma, sizes, p, init, eta, lmbda, n, j);
    } else {
      assert batches[..j] == batches;
    }
  }

  /** `total_cost(evaluation_data, lmbda, convert=True)`; iterating None raises. */
  function EvaluationCost(cost: CostFunction, ln: Logarithm, sigma: ActivationFn, sizes: seq<nat>, p: Params,
                          s: Schedule): Result<real>
    requires Shaped(sizes, p) && Admissible(s)
  {
    match s.evaluationData
    case None => Err(NoEvaluationData)
    case Some(d) => TotalCostOf(cost, ln, sigma, sizes, p, d, s.lmbda, true)
  }

  /**
   * `accuracy(evaluation_data)`; iterating None raises, and on an empty list
   * the progress line names n_data, which was never bound.
   */
  function EvaluationAccuracy(sigma: ActivationFn, sizes: seq<nat>, p: Params, s: Schedule): (r: Result<nat>)
    requires Shaped(sizes, p) && Admissible(s)
    ensures r.Ok? <==> s.evaluationData.Some? && |s.evaluationData.value| > 0
                       && AccuracyOf(sigma, sizes, p, s.evaluationData.value, false).Ok?
    ensures r.Ok? ==> r.value <= EvaluationSize(s)
  {
    match s.evaluationData
    case None => Err(NoEvaluationData)
    case Some(d) =>
      match AccuracyOf(sigma, sizes, p, d, false)
      case Err(e) => Err(e)
      case Ok(c) => if |d| == 0 then Err(NoEvaluationData) else Ok(c)
  }

  /**
   * One monitor of the end of an epoch: when its flag is set, the value it
   * computes is appended to its list, unless an earlier monitor raised or
   * this one raises.
   */
  function WithTrainingCost(r: Result<History>, on: bool, c: Result<real>): Result<History> {
    if r.Err? || !on then r
    else match c
      case Err(e) => Err(e)
      case Ok(v) => Ok(r.value.(trainingCost := r.value.trainingCost + [v]))
  }

  function WithTrainingAccuracy(r: Result<History>, on: bool, a: Result<nat>): Result<History> {
    if r.Err? || !on then r
    else match a
      case Err(e) => Err(e)
      case Ok(v) => Ok(r.value.(trainingAccuracy := r.value.trainingAccuracy + [v]))
  }

  function WithEvaluationCost(r: Result<History>, on: bool, c: Result<real>): Result<History> {
    if r.Err? || !on then r
    else match c
      case Err(e) => Err(e)
      case Ok(v) => Ok(r.value.(evaluationCost := r.value.evaluationCost + [v]))
  }

  function WithEvaluationAccuracy(r: Result<History>, on: bool, a: Result<nat>): Result<History> {
    if r.Err? || !on then r
    else match a
      case Err(e) => Err(e)
      case Ok(v) => Ok(r.value.(evaluationAccuracy := r.value.evaluationAccuracy + [v]))
  }

  /**
   * The monitoring at the end of an epoch over the shuffled `data`, in the
   * order of the source: training cost, training accuracy, evaluation cost,
   * evaluation accuracy.  A monitor whose flag is off computes nothing, so
   * it cannot raise.  A monitoring that succeeds appends one entry to each
   * monitored list and leaves the rest alone; monitoring the evaluation
   * data when there is none raises.
   */
  function Observe(cost: CostFunction, ln: Logarithm, sigma: ActivationFn, sizes: seq<nat>, p: Params,
                   data: seq<Example>, s: Schedule, h: History): (r: Result<History>)
    requires Shaped(sizes, p) && Represented(data, true) && Admissible(s)
    ensures r.Ok? ==> Extends(h, r.value, s, |data|)
    ensures (s.monitors.evaluationCost || s.monitors.evaluationAccuracy) && s.evaluationData == None ==> r.Err?
  {
    var tc, ta := TotalCostOf(cost, ln, sigma, sizes, p, data, s.lmbda, false), AccuracyOf(sigma, sizes, p, data, true);
    var ec, ea := EvaluationCost(cost, ln, sigma, sizes, p, s), EvaluationAccuracy(sigma, sizes, p, s);
    var observed := Monitored(h, s.monitors, tc, ta, ec, ea);
    if observed.Ok? then
      MonitoredExtends(h, s, tc, ta, ec, ea, |data|);
      observed
    else observed
  }

  /** The four monitors in order, given what each would compute. */
  function Monitored(h: History, m: Monitors, tc: Result<real>, ta: Result<nat>, ec: Result<real>, ea: Result<nat>): Result<History> {
    var r1 := WithTrainingCost(Ok(h), m.trainingCost, tc);
    var r2 := WithTrainingAccuracy(r1, m.trainingAccuracy, ta);
    var r3 := WithEvaluationCost(r2, m.evaluationCost, ec);
    WithEvaluationAccuracy(r3, m.evaluationAccuracy, ea)
  }

  function Count(flag: bool, epochs: nat): nat {
    if flag then epochs else 0
  }

  /**
   * h2 is h with one more entry in each monitored list and no other change,
   * the new accuracies bounded by the sizes of their data sets.
   */
  predicate Extends(h: History, h2: History, s: Schedule, n: nat) {
    && |h2.trainingCost| == |h.trainingCost| + Count(s.monitors.trainingCost, 1)
    && |h2.trainingAccuracy| == |h.trainingAccuracy| + Count(s.monitors.trainingAccuracy, 1)
    && |h2.evaluationCost| == |h.evaluationCost| + Count(s.monitors.evaluationCost, 1)
    && |h2.evaluationAccuracy| == |h.evaluationAccuracy| + Count(s.monitors.evaluationAccuracy, 1)
    && h2.trainingCost[..|h.trainingCost|] == h.trainingCost
    && h2.trainingAccuracy[..|h.trainingAccuracy|] == h.trainingAccuracy
    && h2.evaluationCost[..|h.evaluationCost|] == h.evaluationCost
    && h2.evaluationAccuracy[..|h.evaluationAccuracy|] == h.evaluationAccuracy
    && (forall i :: |h.trainingAccuracy| <= i < |h2.trainingAccuracy| ==> h2.trainingAccuracy[i] <= n)
    && (forall i :: |h.evaluationAccuracy| <= i < |h2.evaluationAccuracy| ==>
          h2.evaluationAccuracy[i] <= EvaluationSize(s))
  }

  lemma MonitoredExtends(h: History, s: Schedule, tc: Result<real>, ta: Result<nat>, ec: Result<real>, ea: Result<nat>, n: nat)
    requires Monitored(h, s.monitors, tc, ta, ec, ea).Ok?
    requires ta.Ok? ==> ta.value <= n
    requires ea.Ok? ==> ea.value <= EvaluationSize(s)
    ensures Extends(h, Monitored(h, s.monitors, tc, ta, ec, ea).value, s, n)
  {
    var m := s.monitors;
    var r1 := WithTrainingCost(Ok(h), m.trainingCost, tc);
    var r2 := WithTrainingAccuracy(r1, m.trainingAccuracy, ta);
    var r3 := WithEvaluationCost(r2, m.evaluationCost, ec);
    var r4 := WithEvaluationAccuracy(r3, m.evaluationAccuracy, ea);
    assert r3.Ok? && r2.Ok? && r1.Ok?;
    var h1, h2, h3, h4 := r1.value, r2.value, r3.value, r4.value;
    assert h1 == if m.trainingCost then h.(trainingCost := h.trainingCost + [tc.value]) else h;
    assert h2 == if m.trainingAccuracy then h1.(trainingAccuracy := h1.trainingAccuracy + [ta.value]) else h1;
    assert h3 == if m.evaluationCost then h2.(evaluationCost := h2.evaluationCost + [ec.value]) else h2;
    assert h4 == if m.evaluationAccuracy then h3.(evaluationAccuracy := h3.evaluationAccuracy + [ea.value]) else h3;
  }

  /** An epoch that ends normally has extended the lists by its monitoring. */
  lemma EpochExtends(cost: CostFunction, ln: Logarithm, sigma: ActivationFn, sizes: seq<nat>, t: Trained,
                     data: seq<Example>, s: Schedule)
    requires Shaped(sizes, t.params) && Represented(data, true) && Admissible(s)
    requires Epoch(cost, ln, sigma, sizes, t, data, s).failure.None?
    ensures Extends(t.history, Epoch(cost, ln, sigma, sizes, t, data, s).history, s, |data|)
  {
    var batches := MiniBatches(data, s.miniBatchSize).value;
    MiniBatchMembers(data, s.miniBatchSize);
    var u := TrainBatches(cost, sigma, sizes, t.params, batches, s.eta, s.lmbda, |data|);
  }

  /**
   * One epoch over the training data in the order the shuffle left it:
   * partition, train on each batch, then monitor.
   */
  function Epoch(cost: CostFunction, ln: Logarithm, sigma: ActivationFn, sizes: seq<nat>, t: Trained,
                 data: seq<Example>, s: Schedule): (r: Trained)
    requires Shaped(sizes, t.params) && Represented(data, true) && Admissible(s)
    ensures Shaped(sizes, r.params)
    ensures s.miniBatchSize == 0 ==> r == Trained(t.params, t.history, Some(ZeroStep))
    ensures r.failure.Some? ==> r.history == t.history
  {
    match MiniBatches(data, s.miniBatchSize)
    case Err(e) => Trained(t.params, t.history, Some(e))
    case Ok(batches) =>
      MiniBatchMembers(data, s.miniBatchSize);
      assert Batched(batches);
      var u := TrainBatches(cost, sigma, sizes, t.params, batches, s.eta, s.lmbda, |data|);
      if u.failure.Some? then Trained(u.params, t.history, u.failure)
      else
        match Observe(cost, ln, sigma, sizes, u.params, data, s, t.history)
        case Err(e) => Trained(u.params, t.history, Some(e))
        case Ok(h) => Trained(u.params, h, None)
  }

  /**
   * The state after `SGD` has run one epoch per entry of `orders`, each
   * over the training data in that order, stopping at the first exception.
   */
  function Run(cost: CostFunction, ln: Logarithm, sigma: ActivationFn, sizes: seq<nat>, p: Params,
               orders: seq<seq<Example>>, s: Schedule): (r: Trained)
    requires Shaped(sizes, p) && Batched(orders) && Admissible(s)
    ensures Shaped(sizes, r.params)
    decreases |orders|
  {
    if |orders| == 0 then Trained(p, History([], [], [], []), None)
    else
      var init := orders[..|orders| - 1];
      assert forall i :: 0 <= i < |init| ==> init[i] == orders[i];
      var prev := Run(cost, ln, sigma, sizes, p, init, s);
      if prev.failure.Some? then prev
      else Epoch(cost, ln, sigma, sizes, prev, orders[|orders| - 1], s)
  }

  /** One more epoch, over the order its shuffle produced, once the earlier ones finished. */
  lemma RunStep(cost: CostFunction, ln: Logarithm, sigma: ActivationFn, sizes: seq<nat>, p: Params,
                orders: seq<seq<Example>>, data: seq<Example>, s: Schedule)
    requires Shaped(sizes, p) && Batched(orders) && Represented(data, true) && Admissible(s)
    requires Run(cost, ln, sigma, sizes, p, orders, s).failure.None?
    ensures Batched(orders + [data])
    ensures Run(cost, ln, sigma, sizes, p, orders + [data], s)
         == Epoch(cost, ln, sigma, sizes, Run(cost, ln, sigma, sizes, p, orders, s), data, s)
  {
    var next := orders + [data];
    assert forall i :: 0 <= i < |orders| ==> next[i] == orders[i];
    assert next[..|next| - 1] == orders;
  }

  /**
   * The lists after `epochs` completed epochs: one entry per epoch in each
   * monitored list and none in the others, every accuracy at most the size
   * of the data set it counts over (n for the training data).
   */
  predicate Recorded(h: History, s: Schedule, epochs: nat, n: nat) {
    && |h.trainingCost| == Count(s.monitors.trainingCost, epochs)
    && |h.trainingAccuracy| == Count(s.monitors.trainingAccuracy, epochs)
    && |h.evaluationCost| == Count(s.monitors.evaluationCost, epochs)
    && |h.evaluationAccuracy| == Count(s.monitors.evaluationAccuracy, epochs)
    && (forall i :: 0 <= i < |h.trainingAccuracy| ==> h.trainingAccuracy[i] <= n)
    && (forall i :: 0 <= i < |h.evaluationAccuracy| ==>
          h.evaluationAccuracy[i] <= EvaluationSize(s))
  }

  lemma RecordedStep(h: History, h2: History, s: Schedule, epochs: nat, n: nat)
    requires Recorded(h, s, epochs, n) && Extends(h, h2, s, n)
    ensures Recorded(h2, s, epochs + 1, n)
  {
    assert forall i :: 0 <= i < |h.trainingAccuracy| ==> h2.trainingAccuracy[i] == h.trainingAccuracy[i];
    assert forall i :: 0 <= i < |h.evaluationAccuracy| ==> h2.evaluationAccuracy[i] == h.evaluationAccuracy[i];
  }

  /** A run that finishes has recorded every one of its epochs. */
  lemma {:induction false} RunHistory(cost: CostFunction, ln: Logarithm, sigma: ActivationFn, sizes: seq<nat>, p: Params,
                                      orders: seq<seq<Example>>, s: Schedule, n: nat)
    requires Shaped(sizes, p) && Batched(orders) && Admissible(s)
    requires forall i :: 0 <= i < |orders| ==> |orders[i]| == n
    requires Run(cost, ln, sigma, sizes, p, orders, s).failure.None?
    ensures Recorded(Run(cost, ln, sigma, sizes, p, orders, s).history, s, |orders|, n)
    decreases |orders|
  {
    if |orders| > 0 {
      var init := orders[..|orders| - 1];
      assert forall i :: 0 <= i < |init| ==> init[i] == orders[i];
      var prev := Run(cost, ln, sigma, sizes, p, init, s);
      assert prev.failure.None?;
      RunHistory(cost, ln, sigma, sizes, p, init, s, n);
      EpochExtends(cost, ln, sigma, sizes, prev, orders[|orders| - 1], s);
      RecordedStep(prev.history, Run(cost, ln, sigma, sizes, p, orders, s).history, s, |init|, n);
    }
  }

  /** With eta = 0 every mini-batch step that succeeds leaves the parameters unchanged. */
  lemma {:induction false} TrainBatchesAtZeroRate(cost: CostFunction, sigma: ActivationFn, sizes: seq<nat>, p: Params,
                                                  batches: seq<seq<Example>>, lmbda: real, n: nat)
    requires Shaped(sizes, p) && Batched(batches)
    ensures TrainBatches(cost, sigma, sizes, p, batches, 0.0, lmbda, n).params == p
    decreases |batches|
  {
    if |batches| > 0 {
      var init := batches[..|batches| - 1];
      assert forall i :: 0 <= i < |init| ==> init[i] == batches[i];
      TrainBatchesAtZeroRate(cost, sigma, sizes, p, init, lmbda, n);
      MiniBatchStepAtZeroRate(cost, sigma, sizes, p, batches[|batches| - 1], lmbda, n);
    }
  }

  /** Training with eta = 0 never changes the network, however it ends. */
  lemma {:induction false} RunAtZeroRate(cost: CostFunction, ln: Logarithm, sigma: ActivationFn, sizes: seq<nat>, p: Params,
                                         orders: seq<seq<Example>>, s: Schedule)
    requires Shaped(sizes, p) && Batched(orders) && Admissible(s) && s.eta == 0.0
    ensures Run(cost, ln, sigma, sizes, p, orders, s).params == p
    decreases |orders|
  {
    if |orders| > 0 {
      var init := orders[..|orders| - 1];
      assert forall i :: 0 <= i < |init| ==> init[i] == orders[i];
      RunAtZeroRate(cost, ln, sigma, sizes, p, init, s);
      var prev := Run(cost, ln, sigma, sizes, p, init, s);
      if prev.failure.None? {
        EpochAtZeroRate(cost, ln, sigma, sizes, prev, orders[|orders| - 1], s);
      }
    }
  }

  /** An epoch with eta = 0 leaves the parameters it started from. */
  lemma EpochAtZeroRate(cost: CostFunction, ln: Logarithm, sigma: ActivationFn, sizes: seq<nat>, t: Trained,
                        data: seq<Example>, s: Schedule)
    requires Shaped(sizes, t.params) && Represented(data, true) && Admissible(s) && s.eta == 0.0
    ensures Epoch(cost, ln, sigma, sizes, t, data, s).params == t.params
  {
    if s.miniBatchSize != 0 {
      MiniBatchMembers(data, s.miniBatchSize);
      TrainBatchesAtZeroRate(cost, sigma, sizes, t.params, MiniBatches(data, s.miniBatchSize).value, s.lmbda, |data|);
    }
  }

  /** xrange refuses a zero mini-batch size, so the first epoch raises before any training. */
  lemma {:induction false} RunZeroBatchSize(cost: CostFunction, ln: Logarithm, sigma: ActivationFn, sizes: seq<nat>, p: Params,
                                            orders: seq<seq<Example>>, s: Schedule)
    requires Shaped(sizes, p) && Batched(orders) && Admissible(s) && s.miniBatchSize == 0 && |orders| > 0
    ensures Run(cost, ln, sigma, sizes, p, orders, s) == Trained(p, History([], [], [], []), Some(ZeroStep))
    decreases |orders|
  {
    var init := orders[..|orders| - 1];
    assert forall i :: 0 <= i < |init| ==> init[i] == orders[i];
    if |init| > 0 {
      RunZeroBatchSize(cost, ln, sigma, sizes, p, init, s);
    }
  }
}
