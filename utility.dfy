/**
 * utility.py: the sigmoid activation, its derivative, and the one-hot
 * encoding of a digit.  The sigmoid 1/(1+exp(-z)) needs `exp`, which has no
 * exact counterpart over the reals, so every member takes the scalar sigmoid
 * as a parameter and nothing is assumed about it.
 */
module Utility {
  import opened Outcomes
  import opened LinAlg

  /** The scalar sigmoid, left uninterpreted. */
  type ActivationFn = real -> real

  /** sigmoid applied elementwise, as numpy does on an array. */
  function Sigmoid(sigma: ActivationFn, z: Vector): (r: Vector)
    ensures |r| == |z| && forall i :: 0 <= i < |z| ==> r[i] == sigma(z[i])
  {
    seq(|z|, i requires 0 <= i < |z| => sigma(z[i]))
  }

  /**
   * sigmoid_prime(z) = sigmoid(z) * (1 - sigmoid(z)), written with the same
   * array operations; the contract gives it entry by entry.
   */
  function SigmoidPrime(sigma: ActivationFn, z: Vector): (r: Vector)
    ensures |r| == |z|
    ensures forall i :: 0 <= i < |z| ==> r[i] == sigma(z[i]) * (1.0 - sigma(z[i]))
  {
    var s := Sigmoid(sigma, z);
    Hadamard(s, OneMinus(s))
  }

  /** The number of entries of a one-hot digit encoding. */
  const Digits: nat := 10

  /** Python's reading of an index into a sequence of length n. */
  function PyIndex(n: nat, i: int): (k: nat)
    requires -(n as int) <= i < n
    ensures k < n && (i >= 0 ==> k == i) && (i < 0 ==> k + (-i) == n)
  {
    if i < 0 then n + i else i
  }

  /**
   * What vectorized_result(j) returns: a zero vector of length 10 with a 1.0
   * at index j, where numpy reads a negative j from the end; any other j
   * makes the index write fail.
   */
  function UnitVector(j: int): (r: Result<Vector>)
    ensures r.Ok? <==> -(Digits as int) <= j < Digits
    ensures r.Err? ==> r.error == IndexOutOfRange
    ensures r.Ok? ==> |r.value| == Digits
    ensures r.Ok? ==> r.value[PyIndex(Digits, j)] == 1.0
    ensures r.Ok? ==> forall i :: 0 <= i < Digits && i != PyIndex(Digits, j) ==> r.value[i] == 0.0
  {
    if -(Digits as int) <= j < Digits then
      var k := PyIndex(Digits, j);
      Ok(seq(Digits, i => if i == k then 1.0 else 0.0))
    else
      Err(IndexOutOfRange)
  }

  /** vectorized_result: allocate a zero array, then write 1.0 at index j. */
  method VectorizedResult(j: int) returns (r: Result<Vector>)
    ensures r == UnitVector(j)
    ensures r.Ok? ==> |r.value| == Digits
  {
    var e := new real[Digits](_ => 0.0);
    if j < -(Digits as int) || j >= Digits {
      return Err(IndexOutOfRange);
    }
    var k := PyIndex(Digits, j);
    e[k] := 1.0;
    assert e[..] == seq(Digits, i => if i == k then 1.0 else 0.0);
    r := Ok(e[..]);
  }

  /**
   * For a digit 0 <= j < 10 the largest entry of its encoding is at j, so
   * np.argmax recovers the digit.
   */
  lemma ArgmaxUnitVector(j: int)
    requires 0 <= j < Digits
    ensures UnitVector(j).Ok?
    ensures Argmax(UnitVector(j).value) == j
  {
    var e := UnitVector(j).value;
    assert e[j] <= e[Argmax(e)];
  }
}
