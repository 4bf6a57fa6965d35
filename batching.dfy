/**
 * The mini-batch partition of `SGD`: `xrange(0, n, size)` and the slices
 * `training_data[k:k+size]` taken at each of its points, in order.
 */
module Batching {
  import opened Outcomes

  /** Python's `xrange(start, stop, step)` for a positive step. */
  function Range(start: int, stop: int, step: int): (r: seq<int>)
    requires step > 0
    ensures |r| == 0 <==> start >= stop
    ensures |r| > 0 ==> r[0] == start
    ensures forall i :: 0 <= i < |r| ==> start <= r[i] < stop
    ensures forall i {:trigger r[i], r[i + 1]} :: 0 <= i < |r| - 1 ==> r[i + 1] == r[i] + step
    ensures |r| > 0 ==> r[|r| - 1] + step >= stop
    decreases stop - start
  {
    if start >= stop then []
    else
      var rest := Range(start + step, stop, step);
      var r := [start] + rest;
      assert forall i :: 0 <= i < |r| - 1 ==> r[i + 1] == r[i] + step by {
        forall i | 0 <= i < |r| - 1 ensures r[i + 1] == r[i] + step {
          if i == 0 {
            assert r[1] == rest[0];
          } else {
            var m := i - 1;
            assert r[i] == rest[m] && r[i + 1] == rest[m + 1];
          }
        }
      }
      r
  }

  /** xrange(start, stop, step) has ceil((stop - start) / step) points. */
  lemma {:induction false} RangeCount(start: int, stop: int, step: int)
    requires step > 0
    ensures |Range(start, stop, step)| == if start >= stop then 0 else (stop - start + step - 1) / step
    decreases stop - start
  {
    if start < stop {
      RangeCount(start + step, stop, step);
      DivStep(stop - start - 1, step);
    }
  }

  lemma MulMonotonic(a: int, b: int, d: int)
    requires a <= b && d >= 0
    ensures a * d <= b * d
  {
    assert b * d - a * d == (b - a) * d;
  }

  /** Euclidean division has one quotient. */
  lemma DivUnique(n: int, d: int, q: int, m: int)
    requires d > 0 && n == q * d + m && 0 <= m < d
    ensures n / d == q
  {
    var q' := n / d;
    assert n == q' * d + n % d;
    if q' > q {
      assert (q + 1) * d == q * d + d;
      MulMonotonic(q + 1, q', d);
    } else if q' < q {
      MulMonotonic(q' + 1, q, d);
    }
  }

  /** (x + d) / d == x / d + 1, the step of the count of an xrange. */
  lemma DivStep(x: int, d: int)
    requires x >= 0 && d > 0
    ensures (x + d) / d == x / d + 1
    ensures x < d ==> x / d == 0
  {
    var q, m := x / d, x % d;
    assert x == q * d + m;
    assert x + d == (q + 1) * d + m;
    DivUnique(x + d, d, q + 1, m);
    if x < d { DivUnique(x, d, 0, x); }
  }

  /**
   * Where Python's slice `s[lo:hi]` ends, for 0 <= lo <= len(s): `hi` clamped
   * to between `lo` and len(s).
   */
  function Clamp(lo: int, hi: int, n: int): int {
    if hi <= lo then lo else if hi <= n then hi else n
  }

  /**
   * `[data[k:k+size] for k in xrange(0, len(data), size)]`; xrange refuses a
   * zero step, and a negative step yields no point at all.
   */
  function MiniBatches<T>(data: seq<T>, size: int): (r: Result<seq<seq<T>>>)
    ensures r.Err? <==> size == 0
    ensures r.Err? ==> r.error == ZeroStep
    ensures size < 0 ==> r == Ok([])
  {
    if size == 0 then Err(ZeroStep)
    else if size < 0 then Ok([])
    else Ok(BatchesFrom(data, 0, size))
  }

  /** `[data[j:j+size] for j in xrange(k, len(data), size)]`, one point at a time. */
  function BatchesFrom<T>(data: seq<T>, k: nat, size: int): seq<seq<T>>
    requires size > 0
    decreases |data| - k
  {
    if k >= |data| then []
    else [data[k..Clamp(k, k + size, |data|)]] + BatchesFrom(data, k + size, size)
  }

  /** The batches put back together, in order. */
  function Flatten<T>(bs: seq<seq<T>>): seq<T> {
    if |bs| == 0 then [] else bs[0] + Flatten(bs[1..])
  }

  /** One batch per point of the xrange. */
  lemma {:induction false} BatchesFromCount<T>(data: seq<T>, k: nat, size: int)
    requires size > 0
    ensures |BatchesFrom(data, k, size)| == |Range(k, |data|, size)|
    decreases |data| - k
  {
    if k < |data| {
      BatchesFromCount(data, k + size, size);
    }
  }

  /** There are ceil(n / size) batches, one per point of xrange(0, n, size). */
  lemma MiniBatchCount<T>(data: seq<T>, size: int)
    requires size > 0
    ensures |MiniBatches(data, size).value| == |Range(0, |data|, size)| == (|data| + size - 1) / size
  {
    BatchesFromCount(data, 0, size);
    RangeCount(0, |data|, size);
    if |data| == 0 {
      DivStep(size - 1, size);
    }
  }

  /**
   * Every batch but the last holds exactly `size` examples; the last holds
   * between one and `size`.
   */
  lemma {:induction false} BatchesFromSizes<T>(data: seq<T>, k: nat, size: int)
    requires size > 0
    ensures var bs := BatchesFrom(data, k, size);
      && (forall i :: 0 <= i < |bs| - 1 ==> |bs[i]| == size)
      && (|bs| > 0 ==> 1 <= |bs[|bs| - 1]| <= size)
    decreases |data| - k
  {
    if k < |data| {
      BatchesFromSizes(data, k + size, size);
      var bs := BatchesFrom(data, k, size);
      var rest := BatchesFrom(data, k + size, size);
      assert forall i :: 1 <= i < |bs| ==> bs[i] == rest[i - 1];
      if |rest| > 0 {
        assert k + size < |data|;
      }
    }
  }

  lemma MiniBatchSizes<T>(data: seq<T>, size: int)
    requires size > 0
    ensures var bs := MiniBatches(data, size).value;
      && (forall i :: 0 <= i < |bs| - 1 ==> |bs[i]| == size)
      && (|bs| > 0 ==> 1 <= |bs[|bs| - 1]| <= size)
  {
    BatchesFromSizes(data, 0, size);
  }

  /** Put back together in order, the batches from point k are the data from k on. */
  lemma {:induction false} BatchesFromFlatten<T>(data: seq<T>, k: nat, size: int)
    requires size > 0 && k <= |data|
    ensures Flatten(BatchesFrom(data, k, size)) == data[k..]
    decreases |data| - k
  {
    if k < |data| {
      var hi := Clamp(k, k + size, |data|);
      var bs := BatchesFrom(data, k, size);
      if hi < |data| {
        BatchesFromFlatten(data, k + size, size);
      } else {
        assert BatchesFrom(data, k + size, size) == [];
      }
      assert bs[1..] == BatchesFrom(data, k + size, size);
      SliceSplit(data, k, hi);
    }
  }

  lemma SliceSplit<T>(s: seq<T>, k: nat, hi: nat)
    requires k <= hi <= |s|
    ensures s[k..] == s[k..hi] + s[hi..]
  {
  }

  /** Put back together in order, the batches are the data. */
  lemma MiniBatchesFlatten<T>(data: seq<T>, size: int)
    requires size > 0
    ensures Flatten(MiniBatches(data, size).value) == data
  {
    BatchesFromFlatten(data, 0, size);
    assert data[0..] == data;
  }

  /** Every element of every batch from point k is an element of the data. */
  lemma {:induction false} BatchesFromMembers<T>(data: seq<T>, k: nat, size: int)
    requires size > 0
    ensures forall i, j :: 0 <= i < |BatchesFrom(data, k, size)| && 0 <= j < |BatchesFrom(data, k, size)[i]| ==>
              BatchesFrom(data, k, size)[i][j] in data
    decreases |data| - k
  {
    if k < |data| {
      BatchesFromMembers(data, k + size, size);
      var bs := BatchesFrom(data, k, size);
      var rest := BatchesFrom(data, k + size, size);
      forall i, j | 0 <= i < |bs| && 0 <= j < |bs[i]| ensures bs[i][j] in data {
        if i == 0 {
          assert bs[0][j] == data[k + j];
        } else {
          assert bs[i] == rest[i - 1];
          assert rest[i - 1][j] in data;
        }
      }
    }
  }

  /** Every element of every batch is an element of the data. */
  lemma MiniBatchMembers<T>(data: seq<T>, size: int)
    requires size != 0
    ensures var bs := MiniBatches(data, size).value;
      forall i, j :: 0 <= i < |bs| && 0 <= j < |bs[i]| ==> bs[i][j] in data
  {
    if size > 0 {
      BatchesFromMembers(data, 0, size);
      assert MiniBatches(data, size).value == BatchesFrom(data, 0, size);
    }
  }
}
