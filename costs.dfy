/**
 * The two cost classes of network2.py.  Each supplies `fn`, the loss of an
 * output `a` against a target `y`, and `delta`, the error of the output
 * layer.  The classes are stateless, so the choice is a tag.
 */
module Costs {
  import opened Outcomes
  import opened LinAlg
  import opened Utility

  datatype CostFunction = QuadraticCost | CrossEntropyCost

  /** The natural logarithm, left uninterpreted. */
  type Logarithm = real -> real

  /** The summands -y*ln(a) - (1-y)*ln(1-a) of the cross-entropy loss. */
  function CrossEntropyTerms(ln: Logarithm, a: Vector, y: Vector): (r: Vector)
    requires |a| == |y|
    ensures |r| == |a|
    ensures forall i :: 0 <= i < |a| ==> r[i] == -y[i] * ln(a[i]) - (1.0 - y[i]) * ln(1.0 - a[i])
  {
    seq(|a|, i requires 0 <= i < |a| => -y[i] * ln(a[i]) - (1.0 - y[i]) * ln(1.0 - a[i]))
  }

  /**
   * `fn(a, y)`: half the squared norm of a - y for the quadratic cost, the
   * summed cross-entropy terms for the other.  Over the reals a zero factor
   * times any logarithm is zero, which is what np.nan_to_num restores in
   * floating point for the saturated 0 * log(0) terms.
   */
  function Fn(c: CostFunction, ln: Logarithm, a: Vector, y: Vector): (r: real)
    requires |a| == |y|
    ensures c == QuadraticCost ==> r >= 0.0
    ensures c == QuadraticCost && a == y ==> r == 0.0
  {
    match c
    case QuadraticCost =>
      NormSquaredOfNoDifference(a);
      0.5 * NormSquared(Sub(a, y))
    case CrossEntropyCost => Sum(CrossEntropyTerms(ln, a, y))
  }

  /**
   * `delta(z, a, y)`: (a - y) * sigmoid_prime(z) for the quadratic cost and
   * a - y for cross-entropy, which never looks at z (z may have any shape).
   */
  function Delta(c: CostFunction, sigma: ActivationFn, z: Vector, a: Vector, y: Vector): (r: Vector)
    requires |a| == |y|
    requires c == QuadraticCost ==> |z| == |a|
    ensures |r| == |a|
    ensures c == CrossEntropyCost ==> forall i :: 0 <= i < |a| ==> r[i] == a[i] - y[i]
    ensures c == QuadraticCost ==>
      forall i :: 0 <= i < |a| ==> r[i] == (a[i] - y[i]) * (sigma(z[i]) * (1.0 - sigma(z[i])))
  {
    match c
    case QuadraticCost => Hadamard(Sub(a, y), SigmoidPrime(sigma, z))
    case CrossEntropyCost => Sub(a, y)
  }

  /**
   * The saturation case the nan_to_num guard is for: when every output
   * entry equals its target and both are 0.0 or 1.0, the cross-entropy
   * loss is 0 (given ln(1) = 0), not an indeterminate value.
   */
  lemma CrossEntropySaturated(ln: Logarithm, a: Vector, y: Vector)
    requires ln(1.0) == 0.0
    requires |a| == |y|
    requires forall i :: 0 <= i < |a| ==> a[i] == y[i] && (y[i] == 0.0 || y[i] == 1.0)
    ensures Fn(CrossEntropyCost, ln, a, y) == 0.0
  {
    var t := CrossEntropyTerms(ln, a, y);
    forall i | 0 <= i < |a| ensures t[i] == 0.0 {
      if y[i] == 1.0 {
        assert t[i] == -1.0 * ln(1.0) - 0.0 * ln(0.0);
      } else {
        assert t[i] == -0.0 * ln(0.0) - 1.0 * ln(1.0);
      }
    }
    SumOfZeros(t);
  }

  /**
   * The class name `save` writes for a cost, `self.cost.__name__`; `load`
   * resolves it back to the same cost.
   */
  function Name(c: CostFunction): (r: string)
    ensures FromName(r) == Ok(c)
  {
    match c
    case QuadraticCost => "QuadraticCost"
    case CrossEntropyCost => "CrossEntropyCost"
  }

  /**
   * `load`'s lookup of the saved name: exactly the two cost class names
   * resolve; any other name is an error.
   */
  function FromName(s: string): (r: Result<CostFunction>)
    ensures r.Ok? <==> s == "QuadraticCost" || s == "CrossEntropyCost"
    ensures r.Err? ==> r.error == UnknownCostFunction
  {
    if s == "QuadraticCost" then Ok(QuadraticCost)
    else if s == "CrossEntropyCost" then Ok(CrossEntropyCost)
    else Err(UnknownCostFunction)
  }

  /** A name that resolves is the saved name of the cost it resolves to. */
  lemma FromNameInverse(s: string)
    requires FromName(s).Ok?
    ensures Name(FromName(s).value) == s
  {
  }
}
