# network2 in Dafny

A model of the feed-forward network engine of `deep-learning/vision/mnielsen/network2.py`, with the helpers it takes from `utility.py`, and proofs about that model. The engine trains a fully connected sigmoid network with stochastic gradient descent. It has four parts:

- **Costs.** Two cost functions, quadratic and cross-entropy, each with its output-layer error `delta`.
- **Initialization.** Two weight initializers.
- **Passes.** `feedforward` and `backprop`.
- **Training and evaluation.** The L2-regularized mini-batch update, the mini-batch partition and monitoring of `SGD`, `accuracy` and `total_cost`.

Numbers are Dafny `real`s. The sigmoid and the natural logarithm are not expressible in Dafny, so they are parameters (`ActivationFn`, `Logarithm`, each `real -> real`). Every property below holds whatever functions are passed for them, with one exception: Costs.CrossEntropySaturated assumes ln(1.0) == 0.0. Column vectors (`n x 1` arrays) are `seq<real>`; matrices are row-major `seq<seq<real>>`.

Every exception the Python code can raise on a path the model covers is a value of `Outcomes.Error`, carried by a `Result`. The causes are:

- numpy refusing a dot product or an elementwise operation of mismatched shapes;
- an IndexError, either `zs[-1]` with no layers or `e[j]` outside the ten entries;
- a division by a zero length;
- `np.argmax` of an empty array;
- `xrange` with step 0;
- monitoring evaluation data that is `None` or empty.

Modules, in dependency order:

| file | module | contents |
|---|---|---|
| outcomes.dfy | Outcomes | `Error`, `Result`, `Option` |
| linalg.dfy | LinAlg | the numpy operations used: elementwise sums and products, `np.dot`, transpose, outer product, `np.sum`, squared norms, `np.argmax` |
| utility.dfy | Utility | `sigmoid`, `sigmoid_prime`, `vectorized_result` |
| costs.dfy | Costs | the two cost classes as one datatype; `fn`, `delta`; the class-name lookup of `load` |
| propagation.dfy | Propagation | the parameter shapes; `feedforward` and `backprop` as functions |
| learning.dfy | Learning | the gradient sum over a mini-batch and the regularized step of `update_mini_batch` |
| evaluation.dfy | Evaluation | `accuracy` and `total_cost` as functions |
| batching.dfy | Batching | `xrange` and the slices `training_data[k:k+mini_batch_size]` |
| training.dfy | Training | an epoch of `SGD` and a whole run, with the four monitored lists |
| network.dfy | Network2 | the `Network` class with its fields, and the loops of the engine proved against the functions above |

Design choices:

- **Class and functions.** `Network` is a class because the initializers and `update_mini_batch` rebind its fields. Each loop of the source (`feedforward`, the two passes of `backprop`, the accumulation of `update_mini_batch`, `total_cost`, `accuracy`, the epochs of `SGD`) is a method with loop invariants. Each such method's `ensures` ties its result or the new state to a function of the old state. The properties of those functions are lemmas.
- **`SGD`'s training data.** `SGD` takes its training data as an `array`, because `random.shuffle` permutes it in place.
- **Shuffle orders.** A ghost out-parameter returns the order each epoch's shuffle produced. The final state is proved equal to `Training.Run` over those orders.
- **Randomness.** The initializers' Gaussian draws are arbitrary values of the right shapes. Each swap of the Fisher–Yates shuffle uses an arbitrary index. Both are chosen with `:|`.
- **Targets.** A target is a one-hot vector or a digit (`Propagation.Target`). The docstrings of `accuracy` and `total_cost` say which form each data set has, and that `convert` must match it. The model states this as a precondition (`Represented`) instead of modelling Python's behaviour on mismatched forms.
- **Mismatched shapes are errors.** numpy broadcasts some mismatched shapes, for example `np.dot(w, a) + b` with `b` the wrong length, or `a - y` with `y` of length 1. The model treats every such shape mismatch as an error instead of broadcasting.
- **Negative indices in `vectorized_result`.** The docstring says `vectorized_result` is for digits 0 to 9. The code also accepts `-10..-1`, which numpy counts from the end. The model follows the code (`Utility.UnitVector`).
- **Empty evaluation data with evaluation accuracy monitored.** `n_data` is bound only when `evaluation_data` is non-empty (line 113). The progress line at 143 then raises a NameError. The model raises `NoEvaluationData` there.
- **`None` evaluation data.** Iterating `None` raises a TypeError. The model folds this into `NoEvaluationData` too.

## Model

| member | source | states |
|---|---|---|
| Utility.Sigmoid | deep-learning/vision/mnielsen/utility.py:3-5 | the sigmoid applied elementwise: same length, entry i is sigma(z[i]) |
| Utility.SigmoidPrime | deep-learning/vision/mnielsen/utility.py:7-9 | same length as z, entry i is sigma(z[i]) * (1 - sigma(z[i])) |
| Utility.PyIndex | deep-learning/vision/mnielsen/utility.py:18 | numpy's reading of an index into n entries: a non-negative index is itself, a negative one counts back from n |
| Utility.UnitVector | deep-learning/vision/mnielsen/utility.py:11-19 | defined exactly for -10 <= j < 10, IndexError otherwise; when defined it has ten entries, 1.0 at the position j names and 0.0 everywhere else |
| Utility.VectorizedResult | deep-learning/vision/mnielsen/utility.py:17-19 | zeroing a ten-entry array and writing 1.0 at e[j] yields exactly UnitVector(j), including the IndexError |
| Utility.ArgmaxUnitVector | deep-learning/vision/mnielsen/utility.py:11-19 | for a digit j in 0..9, np.argmax of vectorized_result(j) is j, which is what lets accuracy with convert recover the label |
| LinAlg.Argmax | deep-learning/vision/mnielsen/network2.py:210-213 | np.argmax: an index holding the largest entry, and no earlier index holds it, so the index is unique |
| LinAlg.MatVec | deep-learning/vision/mnielsen/network2.py:169 | np.dot(w, a): one entry per row of w, entry i the dot product of row i with a |
| LinAlg.Transpose | deep-learning/vision/mnielsen/network2.py:181 | w.transpose(): a cols x len(w) matrix whose entry (j, i) is w[i][j] |
| LinAlg.Outer | deep-learning/vision/mnielsen/network2.py:177 | np.dot(delta, a.transpose()) of two column vectors: a len(d) x len(a) matrix whose entry (i, j) is d[i] * a[j] |
| LinAlg.FrobeniusSquared | deep-learning/vision/mnielsen/network2.py:230 | norm(w)**2 of a weight matrix, the sum of its squared entries, is never negative |
| Costs.CrossEntropyTerms | deep-learning/vision/mnielsen/network2.py:45 | the terms -y ln a - (1 - y) ln(1 - a) that CrossEntropyCost.fn sums, one per entry |
| Costs.Fn | deep-learning/vision/mnielsen/network2.py:20-45 | fn of the cost: the quadratic cost 0.5 * norm(a - y)^2 is never negative and is zero when the output equals its target |
| Costs.Delta | deep-learning/vision/mnielsen/network2.py:27-55 | the output error has the length of a; for cross-entropy it is a - y whatever z is; for the quadratic cost it is (a - y) times sigma(z)(1 - sigma(z)), entry by entry |
| Costs.CrossEntropySaturated | deep-learning/vision/mnielsen/network2.py:37-45 | when a and y agree and every entry is 0 or 1, the cross-entropy cost is 0, the value the docstring says nan_to_num restores |
| Costs.FromName | deep-learning/vision/mnielsen/network2.py:253 | load's name lookup succeeds exactly on the two cost class names, each resolving to the cost with that name; any other name is an error |
| Costs.Name | deep-learning/vision/mnielsen/network2.py:238 | the class name save writes for a cost: load resolves it back to that same cost |
| Costs.FromNameInverse | deep-learning/vision/mnielsen/network2.py:238-253 | a name load resolves is exactly the name save writes for the cost it resolves to |
| Propagation.RepresentedPermutation | deep-learning/vision/mnielsen/network2.py:118 | a permutation of a data set keeps the form of its targets, so the shuffled data still satisfies the docstring convention |
| Propagation.ForwardStep | deep-learning/vision/mnielsen/network2.py:168-172 | one pass of the forward loop appends z = w.a + b to zs and sigmoid(z) to activations, and nothing else |
| Propagation.Activation | deep-learning/vision/mnielsen/network2.py:100-104 | the activation after k layers has the input's length for k = 0 and sizes[k] entries otherwise |
| Propagation.WeightedInput | deep-learning/vision/mnielsen/network2.py:168-172 | the weighted input z of layer k has sizes[k+1] entries |
| Propagation.Output | deep-learning/vision/mnielsen/network2.py:100-104 | feedforward succeeds exactly when the input has sizes[0] entries (ShapeMismatch otherwise) and then returns sizes[-1] entries |
| Propagation.ActivationSplits | deep-learning/vision/mnielsen/network2.py:100-104 | the layers apply in order: running layers j..k-1 on the activation after layer j gives the activation after layer k |
| Propagation.Gradients | deep-learning/vision/mnielsen/network2.py:160-185 | backprop succeeds exactly when the input fits, there is at least one layer and y has sizes[-1] entries; a misfit input is ShapeMismatch, no layers is the IndexError of zs[-1] |
| Propagation.GradientsShaped | deep-learning/vision/mnielsen/network2.py:161-162 | nabla_b and nabla_w have the count and the shapes of biases and weights |
| Propagation.GradientsOutputLayer | deep-learning/vision/mnielsen/network2.py:175-177 | nabla_b[-1] is the cost's delta at the output layer and nabla_w[-1] its outer product with activations[-2] |
| Propagation.GradientsChainRule | deep-learning/vision/mnielsen/network2.py:178-183 | for each earlier layer, nabla_b[-l] is (w[-l+1]^T . delta) times sigmoid_prime(zs[-l]) with delta the entry one layer later, and nabla_w[-l] is its outer product with activations[-l-1] |
| Propagation.LayerDelta | deep-learning/vision/mnielsen/network2.py:175-181 | the error of layer k, from the output delta carried back layer by layer, has sizes[k+1] entries |
| Learning.ZerosLikeParams | deep-learning/vision/mnielsen/network2.py:149-150 | np.zeros_like of every bias and weight: the same shapes, every entry 0 |
| Learning.Plus | deep-learning/vision/mnielsen/network2.py:153-154 | the elementwise sum of two gradients of the same shapes keeps the shapes and adds entry by entry |
| Learning.PlusAssociative | deep-learning/vision/mnielsen/network2.py:153-154 | accumulating gradients does not depend on the grouping |
| Learning.PlusZeros | deep-learning/vision/mnielsen/network2.py:149-154 | the zero gradients the accumulation starts from change nothing when added on either side |
| Learning.BatchGradients | deep-learning/vision/mnielsen/network2.py:151-154 | the accumulated nabla_b and nabla_w keep the parameter shapes; they exist exactly when backprop succeeds on every example, and otherwise the error is a shape mismatch or the IndexError of zs[-1] |
| Learning.BatchGradientsConcat | deep-learning/vision/mnielsen/network2.py:151-154 | the accumulated gradient of a batch split in two is the sum of the two halves' accumulated gradients, and a failure in the first half is the failure of the whole |
| Learning.BatchGradientsFirstError | deep-learning/vision/mnielsen/network2.py:151-152 | once a prefix of the batch raises, the whole batch raises that same error |
| Learning.Update | deep-learning/vision/mnielsen/network2.py:155-158 | w' = (1 - eta*lmbda/n) w - (eta/len(mini_batch)) nw and b' = b - (eta/len(mini_batch)) nb entry by entry, shapes kept; ZeroDivisionError exactly when n or the batch length is 0 and there is a weight to update |
| Learning.UpdateAtZeroRate | deep-learning/vision/mnielsen/network2.py:155-158 | with eta = 0 the update leaves every weight and bias unchanged |
| Learning.MiniBatchStepAtZeroRate | deep-learning/vision/mnielsen/network2.py:148-158 | with eta = 0 a successful update_mini_batch leaves the parameters as they were |
| Learning.MiniBatchStep | deep-learning/vision/mnielsen/network2.py:148-158 | update_mini_batch succeeds exactly when backprop succeeds on every example and, if there is a weight to update, n and the batch length are non-zero; the new parameters keep the shapes; the errors are a shape mismatch, the IndexError or ZeroDivisionError |
| Evaluation.Prediction | deep-learning/vision/mnielsen/network2.py:210-213 | np.argmax(self.feedforward(x)) exists exactly when feedforward succeeds with a non-empty output; otherwise the error is a shape mismatch or the argmax of an empty array |
| Evaluation.PredictionArgmax | deep-learning/vision/mnielsen/network2.py:210-213 | the predicted digit indexes an output entry that no other entry exceeds |
| Evaluation.Hit | deep-learning/vision/mnielsen/network2.py:209-215 | one entry int(x == y) is defined exactly when the prediction and the expected digit both are; the only errors are a shape mismatch and an empty argmax |
| Evaluation.HitOnLabel | deep-learning/vision/mnielsen/network2.py:213-215 | a hit on a digit target means the digit indexes an output entry that no other entry exceeds |
| Evaluation.AccuracyOf | deep-learning/vision/mnielsen/network2.py:187-215 | accuracy is an integer between 0 and len(data); the only errors are a shape mismatch and the argmax of an empty output |
| Evaluation.AccuracyOk | deep-learning/vision/mnielsen/network2.py:209-215 | accuracy fails exactly when some example fails to classify, and equals len(data) exactly when every prediction matches its target |
| Evaluation.AccuracyConvert | deep-learning/vision/mnielsen/network2.py:209-214 | replacing each digit by its one-hot vector and setting convert gives the same accuracy as the digits without convert |
| Evaluation.ExampleLoss | deep-learning/vision/mnielsen/network2.py:227-229 | the cost of one example fails only on a shape mismatch or an out-of-range digit |
| Evaluation.AddUp | deep-learning/vision/mnielsen/network2.py:226-229 | the running sum of losses succeeds exactly when every loss does |
| Evaluation.AddUpSum | deep-learning/vision/mnielsen/network2.py:225-229 | adding loss / len(data) one example at a time gives the sum of the losses divided by len(data) |
| Evaluation.AddUpError | deep-learning/vision/mnielsen/network2.py:226-229 | a failing sum fails with the error of the first failing example |
| Evaluation.TotalCostOf | deep-learning/vision/mnielsen/network2.py:217-231 | total_cost succeeds exactly on non-empty data whose every example has a cost; empty data is ZeroDivisionError |
| Evaluation.TotalCostErrors | deep-learning/vision/mnielsen/network2.py:226-229 | a failing total_cost raises the error of its first failing example, a shape mismatch or an out-of-range digit |
| Evaluation.TotalCostMean | deep-learning/vision/mnielsen/network2.py:225-230 | total_cost is the mean of the examples' costs plus 0.5 * (lmbda / n) * the sum of the squared norms of the weights |
| Evaluation.QuadraticLossNonnegative | deep-learning/vision/mnielsen/network2.py:227-229 | an example's quadratic cost is never negative |
| Evaluation.WeightPenaltyNonnegative | deep-learning/vision/mnielsen/network2.py:230 | the sum of the squared norms of the weights is never negative |
| Evaluation.QuadraticTotalCostNonnegative | deep-learning/vision/mnielsen/network2.py:217-231 | with the quadratic cost and lmbda >= 0, total_cost is never negative |
| Batching.Range | deep-learning/vision/mnielsen/network2.py:121 | xrange(start, stop, step): empty exactly when start >= stop, starts at start, stays below stop, steps by step, and its last point is within one step of stop |
| Batching.RangeCount | deep-learning/vision/mnielsen/network2.py:121 | xrange(start, stop, step) has ceil((stop - start) / step) points |
| Batching.MiniBatches | deep-learning/vision/mnielsen/network2.py:119-121 | the list of batches fails exactly on a zero batch size (xrange's ValueError) and is empty for a negative one |
| Batching.MiniBatchCount | deep-learning/vision/mnielsen/network2.py:119-121 | there is one batch per point of xrange(0, n, size), that is ceil(n / size) batches |
| Batching.MiniBatchSizes | deep-learning/vision/mnielsen/network2.py:119-121 | every batch but the last holds exactly mini_batch_size examples; the last holds between 1 and mini_batch_size |
| Batching.MiniBatchesFlatten | deep-learning/vision/mnielsen/network2.py:119-121 | the batches concatenated in order are the shuffled training data |
| Batching.MiniBatchMembers | deep-learning/vision/mnielsen/network2.py:119-121 | every example of every batch is an example of the training data |
| Training.TrainBatches | deep-learning/vision/mnielsen/network2.py:122-124 | the loop over mini-batches keeps the parameter shapes, records no monitored entries, and can only stop on a shape mismatch, the IndexError or ZeroDivisionError |
| Training.TrainBatchesFirstError | deep-learning/vision/mnielsen/network2.py:122-124 | once a prefix of the batches raises, the whole loop ends in that state |
| Training.EvaluationAccuracy | deep-learning/vision/mnielsen/network2.py:139-143 | the evaluation accuracy is recorded exactly when evaluation data is present, non-empty and classifiable, and is at most len(evaluation_data) |
| Training.Observe | deep-learning/vision/mnielsen/network2.py:126-144 | a successful monitoring step appends one entry to each monitored list, leaves the other lists and the earlier entries alone, and bounds each accuracy by its data set's size; monitoring evaluation cost or accuracy without evaluation data raises |
| Training.MonitoredExtends | deep-learning/vision/mnielsen/network2.py:126-144 | the four conditional appends, in order, change only the monitored lists and each by one entry |
| Training.EpochExtends | deep-learning/vision/mnielsen/network2.py:117-144 | an epoch that finishes extends the history by one entry per monitored list |
| Training.Epoch | deep-learning/vision/mnielsen/network2.py:117-144 | an epoch keeps the parameter shapes; a zero mini_batch_size raises at xrange before any update, leaving parameters and lists as they were; an epoch that raises leaves the lists as they were |
| Training.Run | deep-learning/vision/mnielsen/network2.py:115-146 | any number of epochs keeps the parameter shapes sizes gives |
| Training.RunHistory | deep-learning/vision/mnielsen/network2.py:115-146 | after a run that finishes, each monitored list has exactly one entry per epoch, each unmonitored list is empty, and every accuracy is bounded by its data set's size |
| Training.TrainBatchesAtZeroRate | deep-learning/vision/mnielsen/network2.py:122-124 | with eta = 0 training on any batches leaves the parameters unchanged |
| Training.EpochAtZeroRate | deep-learning/vision/mnielsen/network2.py:117-144 | with eta = 0 an epoch leaves the parameters unchanged |
| Training.RunAtZeroRate | deep-learning/vision/mnielsen/network2.py:117-146 | with eta = 0 any number of epochs leaves the parameters unchanged |
| Training.RunZeroBatchSize | deep-learning/vision/mnielsen/network2.py:119-121 | a zero mini_batch_size raises in the first epoch before any update or monitoring, so parameters and history are untouched |
| Network2.Network.constructor | deep-learning/vision/mnielsen/network2.py:60-64 | records sizes, num_layers = len(sizes) and the cost, which defaults to CrossEntropyCost, and leaves parameters of the shapes sizes gives |
| Network2.Network.DefaultWeightInitializer | deep-learning/vision/mnielsen/network2.py:66-80 | len(biases) == len(weights) == len(sizes) - 1, biases[i] has sizes[i+1] entries, weights[i] is sizes[i+1] x sizes[i]; sizes and cost unchanged |
| Network2.Network.LargeWeightInitializer | deep-learning/vision/mnielsen/network2.py:82-98 | the same shapes as the default initializer; sizes and cost unchanged |
| Network2.DrawParameters | deep-learning/vision/mnielsen/network2.py:78-80 | the Gaussian draws of both initializers: arbitrary values, one bias vector and one weight matrix per layer transition of the right shapes |
| Network2.Network.Feedforward | deep-learning/vision/mnielsen/network2.py:100-104 | the loop over zip(biases, weights) computes Output: the layers applied in order, or ShapeMismatch |
| Network2.Network.ForwardPass | deep-learning/vision/mnielsen/network2.py:164-172 | the growing lists zs and activations end as the weighted input and the activation of every layer, or the pass raises on a misfit input |
| Network2.Network.BackwardPass | deep-learning/vision/mnielsen/network2.py:174-183 | the output-layer writes at nabla_b[-1] and nabla_w[-1], then the writes at nabla_b[-l] and nabla_w[-l] for l from 2 to num_layers - 1, fill in exactly the gradients of every layer |
| Network2.Network.Backprop | deep-learning/vision/mnielsen/network2.py:160-185 | backprop returns exactly Gradients, with its error cases, and does not modify the network |
| Network2.Network.UpdateMiniBatch | deep-learning/vision/mnielsen/network2.py:148-158 | the new parameters are the regularized step from the elementwise sum of the batch's backprop results; on an exception the parameters are left as they were; sizes and cost unchanged |
| Network2.Network.Accuracy | deep-learning/vision/mnielsen/network2.py:187-215 | the loop over data computes AccuracyOf, with its error cases; convert defaults to false |
| Network2.Network.Classify | deep-learning/vision/mnielsen/network2.py:210-215 | one entry of the comparison: np.argmax of the output against the label or the argmax of the one-hot target |
| Network2.Network.TotalCost | deep-learning/vision/mnielsen/network2.py:217-231 | the accumulating loop plus the L2 term computes TotalCostOf, with its error cases; convert defaults to false |
| Network2.Network.DataCost | deep-learning/vision/mnielsen/network2.py:225-229 | the loop adds cost / len(data) for each example in order: its result is AddUp of the losses of the data under the current parameters, and it raises the first example's error |
| Network2.Network.ExampleCost | deep-learning/vision/mnielsen/network2.py:227-229 | feedforward, vectorized_result when converting, then the cost's fn: exactly ExampleLoss |
| Network2.Network.SGD | deep-learning/vision/mnielsen/network2.py:106-146 | over the shuffle orders it returns, the final parameters and the four lists are those of Run, epochs and all; on an exception it stops within the epoch count with the parameters as far as they got; every order is a permutation of the training data, which is left in the last order, or unchanged when no epoch runs; sizes and cost unchanged; lmbda defaults to 0.0, evaluation_data to None and every monitor to off |
| Network2.Network.ShuffleAndTrain | deep-learning/vision/mnielsen/network2.py:117-144 | one pass of the epoch loop: shuffle in place, then train and monitor, adding one order and keeping SGD's loop invariant |
| Network2.Network.TrainEpoch | deep-learning/vision/mnielsen/network2.py:119-144 | partition, train on each batch, then monitor: the state Epoch gives |
| Network2.Network.TrainOnBatches | deep-learning/vision/mnielsen/network2.py:122-124 | update_mini_batch on each batch in order, stopping at the first exception: the state TrainBatches gives |
| Network2.Network.Monitor | deep-learning/vision/mnielsen/network2.py:126-144 | the four monitors in order give exactly Observe |
| Network2.Network.MonitorTrainingCost | deep-learning/vision/mnielsen/network2.py:126-128 | when monitored, appends total_cost(training_data, lmbda) or raises its error |
| Network2.Network.MonitorTrainingAccuracy | deep-learning/vision/mnielsen/network2.py:130-132 | when monitored, appends accuracy(training_data, convert=True) or raises its error |
| Network2.Network.MonitorEvaluationCost | deep-learning/vision/mnielsen/network2.py:135-137 | when monitored, appends total_cost(evaluation_data, lmbda, convert=True), or raises when there is no evaluation data |
| Network2.Network.MonitorEvaluationAccuracy | deep-learning/vision/mnielsen/network2.py:139-143 | when monitored, appends accuracy(evaluation_data), or raises when evaluation data is missing or empty |
| Network2.Shuffle | deep-learning/vision/mnielsen/network2.py:118 | random.shuffle permutes the training data in place: the multiset of its elements is unchanged |

## Left out

- Floating point. Numbers are reals: rounding, overflow, `inf` and `nan` are not modelled. So neither is `np.nan_to_num` in `CrossEntropyCost.fn`; over reals the terms it guards are well defined.
- `sigmoid` and the logarithm are parameters, not `1 / (1 + exp(-z))` and `np.log`. The properties hold for every choice of them, except that Costs.CrossEntropySaturated requires ln(1.0) == 0.0.
- `np.linalg.norm(v)**2` is the sum of squared entries; the square root and its square are not modelled separately.
- Layer sizes are `nat`: a negative entry of `sizes` cannot be passed, so the ValueError `np.random.randn(y, 1)` and `np.random.randn(y, x)` raise on one (network2.py:78-80, 96-98, reached from the constructor at line 64) is not modelled.
- Network2.DrawParameters: the Gaussian distribution of `np.random.randn` is not modelled; the contract states only the shapes, because the values are random.
- Network2.Network.DefaultWeightInitializer: the `1 / sqrt(x)` scaling of the drawn weights is not modelled; only the shapes are stated.
- Network2.Network.LargeWeightInitializer: only the shapes of the drawn values are stated.
- Network2.Shuffle: a permutation and nothing more; the uniform distribution of `random.shuffle` is not modelled.
- `SGD`'s four `monitor_*` keywords are one `Training.Monitors` argument, all off by default.
- Console output: the `print` lines in `SGD`. The second `accuracy(evaluation_data)` call inside the last one is also left out, since it repeats the value just appended. Only its use of `n_data` is modelled.
- `save` and `load`: the file I/O, the JSON encoding and the rebuilding of weights and biases from lists are left out. Only the cost-name lookup is modelled (`Costs.Name`, `Costs.FromName`). `load`'s `getattr` on names other than the two cost classes gives an error here, where Python would return whatever module attribute has that name.
- Costs.Delta: the quadratic delta requires `z` and `a` of equal length, which the model's callers always meet. numpy broadcasting of other shapes is not modelled.
- Propagation.Represented: Python's behaviour on data sets whose target form disagrees with `convert` is not modelled. Both methods' docstrings require the forms to agree.
- Python 2 integer division: when `eta` or `lmbda` is passed as an `int`, `eta / len(mini_batch)` and `lmbda / n` in `update_mini_batch` and `0.5*(lmbda/len(data))` in `total_cost` would truncate. The model divides as reals.
- `pca.py` and `test.py` are not part of this model.
