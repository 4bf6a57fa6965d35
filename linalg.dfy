/**
 * The numpy operations the engine uses, over exact reals.  A column vector
 * (an n x 1 array) is a `Vector` of length n; a matrix is a sequence of rows.
 */
module LinAlg {

  type Vector = seq<real>
  type Matrix = seq<seq<real>>

  /** `m` has `rows` rows of `cols` entries each. */
  predicate IsMatrix(m: Matrix, rows: nat, cols: nat) {
    |m| == rows && forall i :: 0 <= i < rows ==> |m[i]| == cols
  }

  /** np.sum, accumulated from the left. */
  function Sum(v: Vector): real {
    if |v| == 0 then 0.0 else Sum(v[..|v| - 1]) + v[|v| - 1]
  }

  function Zeros(n: nat): (r: Vector)
    ensures |r| == n && forall i :: 0 <= i < n ==> r[i] == 0.0
  {
    seq(n, i => 0.0)
  }

  /** np.zeros_like for a matrix. */
  function ZerosLike(m: Matrix): (r: Matrix)
    ensures |r| == |m| && forall i :: 0 <= i < |m| ==> r[i] == Zeros(|m[i]|)
  {
    seq(|m|, i requires 0 <= i < |m| => Zeros(|m[i]|))
  }

  function Add(u: Vector, v: Vector): (r: Vector)
    requires |u| == |v|
    ensures |r| == |u| && forall i :: 0 <= i < |u| ==> r[i] == u[i] + v[i]
  {
    seq(|u|, i requires 0 <= i < |u| => u[i] + v[i])
  }

  function Sub(u: Vector, v: Vector): (r: Vector)
    requires |u| == |v|
    ensures |r| == |u| && forall i :: 0 <= i < |u| ==> r[i] == u[i] - v[i]
  {
    seq(|u|, i requires 0 <= i < |u| => u[i] - v[i])
  }

  /** The elementwise product `u * v` of two arrays of one shape. */
  function Hadamard(u: Vector, v: Vector): (r: Vector)
    requires |u| == |v|
    ensures |r| == |u| && forall i :: 0 <= i < |u| ==> r[i] == u[i] * v[i]
  {
    seq(|u|, i requires 0 <= i < |u| => u[i] * v[i])
  }

  function Scale(c: real, u: Vector): (r: Vector)
    ensures |r| == |u| && forall i :: 0 <= i < |u| ==> r[i] == c * u[i]
  {
    seq(|u|, i requires 0 <= i < |u| => c * u[i])
  }

  /** The broadcast `1 - u`. */
  function OneMinus(u: Vector): (r: Vector)
    ensures |r| == |u| && forall i :: 0 <= i < |u| ==> r[i] == 1.0 - u[i]
  {
    seq(|u|, i requires 0 <= i < |u| => 1.0 - u[i])
  }

  function MatAdd(a: Matrix, b: Matrix): (r: Matrix)
    requires |a| == |b| && forall i :: 0 <= i < |a| ==> |a[i]| == |b[i]|
    ensures |r| == |a| && forall i :: 0 <= i < |a| ==> r[i] == Add(a[i], b[i])
  {
    seq(|a|, i requires 0 <= i < |a| => Add(a[i], b[i]))
  }

  function MatSub(a: Matrix, b: Matrix): (r: Matrix)
    requires |a| == |b| && forall i :: 0 <= i < |a| ==> |a[i]| == |b[i]|
    ensures |r| == |a| && forall i :: 0 <= i < |a| ==> r[i] == Sub(a[i], b[i])
  {
    seq(|a|, i requires 0 <= i < |a| => Sub(a[i], b[i]))
  }

  function MatScale(c: real, a: Matrix): (r: Matrix)
    ensures |r| == |a| && forall i :: 0 <= i < |a| ==> r[i] == Scale(c, a[i])
  {
    seq(|a|, i requires 0 <= i < |a| => Scale(c, a[i]))
  }

  /** np.dot of two vectors. */
  function Dot(u: Vector, v: Vector): real
    requires |u| == |v|
  {
    Sum(Hadamard(u, v))
  }

  /** np.dot(w, a): row i of the result is row i of `w` dotted with `a`. */
  function MatVec(w: Matrix, a: Vector): (r: Vector)
    requires forall i :: 0 <= i < |w| ==> |w[i]| == |a|
    ensures |r| == |w| && forall i :: 0 <= i < |w| ==> r[i] == Dot(w[i], a)
  {
    seq(|w|, i requires 0 <= i < |w| => Dot(w[i], a))
  }

  /** `w.T` for a matrix with `cols` columns. */
  function Transpose(w: Matrix, cols: nat): (r: Matrix)
    requires IsMatrix(w, |w|, cols)
    ensures IsMatrix(r, cols, |w|)
    ensures forall j, i :: 0 <= j < cols && 0 <= i < |w| ==> r[j][i] == w[i][j]
  {
    seq(cols, j requires 0 <= j < cols => seq(|w|, i requires 0 <= i < |w| => w[i][j]))
  }

  /** np.dot(d, a.T) for column vectors: the outer product. */
  function Outer(d: Vector, a: Vector): (r: Matrix)
    ensures IsMatrix(r, |d|, |a|)
    ensures forall i, j :: 0 <= i < |d| && 0 <= j < |a| ==> r[i][j] == d[i] * a[j]
  {
    seq(|d|, i requires 0 <= i < |d| => seq(|a|, j requires 0 <= j < |a| => d[i] * a[j]))
  }

  /** The squared Euclidean norm, np.linalg.norm(v)**2. */
  function NormSquared(v: Vector): (r: real)
    ensures r >= 0.0
  {
    SumNonnegative(Hadamard(v, v));
    Sum(Hadamard(v, v))
  }

  /** The squared Frobenius norm, np.linalg.norm(m)**2. */
  function FrobeniusSquared(m: Matrix): (r: real)
    ensures r >= 0.0
  {
    var rows := seq(|m|, i requires 0 <= i < |m| => NormSquared(m[i]));
    SumNonnegative(rows);
    Sum(rows)
  }

  /**
   * np.argmax: the first index holding the largest entry.  The contract
   * determines the index uniquely.
   */
  function Argmax(v: Vector): (k: nat)
    requires |v| > 0
    ensures k < |v|
    ensures forall i :: 0 <= i < |v| ==> v[i] <= v[k]
    ensures forall i :: 0 <= i < k ==> v[i] < v[k]
  {
    if |v| == 1 then 0
    else
      var k := Argmax(v[..|v| - 1]);
      if v[|v| - 1] > v[k] then |v| - 1 else k
  }

  lemma {:induction false} SumNonnegative(v: Vector)
    requires forall i :: 0 <= i < |v| ==> v[i] >= 0.0
    ensures Sum(v) >= 0.0
  {
    if |v| > 0 {
      SumNonnegative(v[..|v| - 1]);
    }
  }

  lemma {:induction false} SumOfZeros(v: Vector)
    requires forall i :: 0 <= i < |v| ==> v[i] == 0.0
    ensures Sum(v) == 0.0
  {
    if |v| > 0 {
      SumOfZeros(v[..|v| - 1]);
    }
  }

  /** The squared norm of a - a is zero. */
  lemma NormSquaredOfNoDifference(a: Vector)
    ensures NormSquared(Sub(a, a)) == 0.0
  {
    var sq := Hadamard(Sub(a, a), Sub(a, a));
    assert forall i :: 0 <= i < |a| ==> sq[i] == 0.0;
    SumOfZeros(sq);
  }
}
